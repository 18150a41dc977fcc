/** Values the client handles: decoded JSON messages and the transaction
    receipts that the trade executor returns (which may hold raw bytes), and
    the normalisation `to_dict` / `parse_value` (main.py:20-36) that turns a
    receipt into something JSON can carry. */
module Values {

  /** A JSON-like value tree.  `Hex` is a HexBytes value of a receipt; a
      `Dict` is a Python dictionary (or web3's AttributeDict) with string keys. */
  datatype Value =
    | Null
    | Bool(b: bool)
    | Num(n: int)
    | Str(s: string)
    | Hex(bytes: seq<bv8>)
    | List(items: seq<Value>)
    | Dict(fields: map<string, Value>)

  /** The text `HexBytes.hex()` gives for some bytes.  Its exact form (with or
      without a `0x` prefix) depends on the library version, so the model takes
      it as a parameter. */
  type HexText = seq<bv8> -> string

  /** No byte value is left where `to_dict` looks: not among a dictionary's
      values, not inside a list held directly by a dictionary, and not in a
      nested dictionary. */
  predicate Normalised(v: Value)
    decreases v, 0
  {
    match v
    case Hex(_) => false
    case Dict(m) => forall k :: k in m ==> NormalisedEntry(m[k])
    case _ => true
  }

  /** What `to_dict` makes of a dictionary entry: a list has each element
      normalised, anything else is normalised itself. */
  predicate NormalisedEntry(v: Value)
    decreases v, 1
  {
    match v
    case List(xs) => forall i :: 0 <= i < |xs| ==> Normalised(xs[i])
    case _ => Normalised(v)
  }

  /** parse_value (main.py:30-36): a dictionary is converted with `to_dict`,
      bytes become their hex text, and everything else, lists included, is
      returned as it is. */
  function ParseValue(hex: HexText, v: Value): (r: Value)
    ensures Normalised(r)
    ensures r.Dict? <==> v.Dict?
    ensures v.Dict? ==> r.fields.Keys == v.fields.Keys
    ensures v.Hex? ==> r == Str(hex(v.bytes))
    ensures !v.Dict? && !v.Hex? ==> r == v
    decreases v, 2
  {
    match v
    case Dict(m) => Dict(DictSpec(hex, m))
    case Hex(b) => Str(hex(b))
    case _ => v
  }

  /** The value `to_dict` stores under one key (main.py:23-26): a list is
      mapped element by element with `parse_value`, keeping its length; any
      other value goes through `parse_value`. */
  function ParseEntry(hex: HexText, v: Value): (r: Value)
    ensures NormalisedEntry(r)
    ensures v.List? <==> r.List?
    ensures v.List? ==> |r.items| == |v.items|
    decreases v, 3
  {
    match v
    case List(xs) => List(seq(|xs|, i requires 0 <= i < |xs| => ParseValue(hex, xs[i])))
    case _ => ParseValue(hex, v)
  }

  /** The dictionary `to_dict` (main.py:20-27) returns: the same keys, each
      value converted by `ParseEntry`. */
  function DictSpec(hex: HexText, m: map<string, Value>): (r: map<string, Value>)
    ensures r.Keys == m.Keys
    ensures forall k :: k in r ==> NormalisedEntry(r[k])
    decreases Dict(m), 0
  {
    map k | k in m :: ParseEntry(hex, m[k])
  }

  /** to_dict (main.py:20-27): copy the dictionary, then overwrite each key's
      value in turn. */
  method ToDict(hex: HexText, d: map<string, Value>) returns (parsed: map<string, Value>)
    ensures parsed.Keys == d.Keys
    ensures forall k :: k in d ==> parsed[k] == ParseEntry(hex, d[k])
    ensures parsed == DictSpec(hex, d)
  {
    parsed := d;
    var pending := d.Keys;
    while pending != {}
      invariant pending <= d.Keys
      invariant parsed.Keys == d.Keys
      invariant forall k :: k in d && k !in pending ==> parsed[k] == ParseEntry(hex, d[k])
      invariant forall k :: k in pending ==> parsed[k] == d[k]
      decreases pending
    {
      var key :| key in pending;
      var val := parsed[key];
      if val.List? {
        parsed := parsed[key := List(seq(|val.items|, i requires 0 <= i < |val.items| => ParseValue(hex, val.items[i])))];
      } else {
        parsed := parsed[key := ParseValue(hex, val)];
      }
      pending := pending - {key};
    }
  }

  /** A value with nothing left to convert is a fixed point of `parse_value`. */
  lemma {:induction false} NormalisedIsFixed(hex: HexText, v: Value)
    requires Normalised(v)
    ensures ParseValue(hex, v) == v
    decreases v, 0
  {
    match v
    case Dict(m) =>
      forall k | k in m
        ensures ParseEntry(hex, m[k]) == m[k]
      {
        NormalisedEntryIsFixed(hex, m[k]);
      }
    case _ =>
  }

  lemma {:induction false} NormalisedEntryIsFixed(hex: HexText, v: Value)
    requires NormalisedEntry(v)
    ensures ParseEntry(hex, v) == v
    decreases v, 1
  {
    if v.List? {
      forall i | 0 <= i < |v.items|
        ensures ParseValue(hex, v.items[i]) == v.items[i]
      {
        NormalisedIsFixed(hex, v.items[i]);
      }
    } else {
      NormalisedIsFixed(hex, v);
    }
  }

  /** Normalising twice gives the same result as normalising once. */
  lemma ParseValueIdempotent(hex: HexText, v: Value)
    ensures ParseValue(hex, ParseValue(hex, v)) == ParseValue(hex, v)
  {
    NormalisedIsFixed(hex, ParseValue(hex, v));
  }

  /** The same for a whole receipt converted by `to_dict`. */
  lemma DictSpecIdempotent(hex: HexText, m: map<string, Value>)
    ensures DictSpec(hex, DictSpec(hex, m)) == DictSpec(hex, m)
  {
    var once := DictSpec(hex, m);
    forall k | k in once
      ensures ParseEntry(hex, once[k]) == once[k]
    {
      NormalisedEntryIsFixed(hex, once[k]);
    }
  }
}
