/** The wire format that `skip` walks over: fields of every wire type, groups nested to any depth. */
module Fields {
  import opened Types
  import opened Wire
  import opened Codec

  datatype Field =
    | Number(num: nat, value: nat)
    | Eight(num: nat, data: Bytes)
    | Blob(num: nat, data: Bytes)
    | Group(num: nat, fields: seq<Field>)
    | Four(num: nat, data: Bytes)

  function Encode(f: Field): (r: Bytes)
    ensures |r| >= 1
  {
    match f
    case Number(num, value) => Varint(num * 8) + Varint(value)
    case Eight(num, data) => Varint(num * 8 + 1) + data
    case Blob(num, data) => Varint(num * 8 + 2) + (Varint(|data|) + data)
    case Group(num, fields) => Varint(num * 8 + 3) + (EncodeAll(fields) + Varint(num * 8 + 4))
    case Four(num, data) => Varint(num * 8 + 5) + data
  }

  function EncodeAll(fields: seq<Field>): Bytes {
    if fields == [] then [] else Encode(fields[0]) + EncodeAll(fields[1..])
  }

  ghost predicate Ok(f: Field) {
    && f.num * 8 + 5 < U64
    && match f
       case Number(_, value) => value < U64
       case Eight(_, data) => |data| == 8
       case Blob(_, _) => true
       case Group(_, fields) => forall i | 0 <= i < |fields| :: Ok(fields[i])
       case Four(_, data) => |data| == 4
  }

  /** One turn of `skip`, by wire type. */
  lemma SkipTurn(data: Bytes, i: nat, depth: nat, num: nat, t: nat)
    requires t <= 5 && num * 8 + t < U64 && At(data, i, Varint(num * 8 + t))
    ensures var next := i + |Varint(num * 8 + t)|;
            && (t == 0 && ReadVarint(data, next).Got? ==> SkipFrom(data, i, depth) == SkipMore(data, ReadVarint(data, next).next, depth))
            && (t == 1 ==> SkipFrom(data, i, depth) == SkipMore(data, next + 8, depth))
            && (t == 2 && ReadVarint(data, next).Got? ==>
                  var (u, start) := (ReadVarint(data, next).value, ReadVarint(data, next).next);
                  u < I64 && start + u < I64 ==> SkipFrom(data, i, depth) == SkipMore(data, start + u, depth))
            && (t == 3 ==> SkipFrom(data, i, depth) == SkipMore(data, next, depth + 1))
            && (t == 4 && depth > 0 ==> SkipFrom(data, i, depth) == SkipMore(data, next, depth - 1))
            && (t == 5 ==> SkipFrom(data, i, depth) == SkipMore(data, next + 4, depth))
  {
    hide Varint, ReadVarint, SkipMore;
    VarintRoundTrip(data, i, num * 8 + t);
    assert (num * 8 + t) % 8 == t;
  }

  /** Wherever it stands and however deep, a field is skipped to exactly its end. */
  lemma {:induction false} SkipsField(data: Bytes, i: nat, depth: nat, f: Field)
    requires Ok(f) && At(data, i, Encode(f)) && |data| < I64
    ensures SkipFrom(data, i, depth) == SkipMore(data, i + |Encode(f)|, depth)
    decreases f
  {
    hide Varint, ReadVarint, SkipFrom, SkipMore;
    match f
    case Number(num, value) =>
      AtSplit(data, i, Varint(num * 8), Varint(value));
      VarintRoundTrip(data, i + |Varint(num * 8)|, value);
      SkipTurn(data, i, depth, num, 0);
    case Eight(num, d) =>
      AtSplit(data, i, Varint(num * 8 + 1), d);
      SkipTurn(data, i, depth, num, 1);
    case Blob(num, d) =>
      AtSplit(data, i, Varint(num * 8 + 2), Varint(|d|) + d);
      AtSplit(data, i + |Varint(num * 8 + 2)|, Varint(|d|), d);
      VarintRoundTrip(data, i + |Varint(num * 8 + 2)|, |d|);
      SkipTurn(data, i, depth, num, 2);
    case Group(_, _) =>
      SkipsGroup(data, i, depth, f);
    case Four(num, d) =>
      AtSplit(data, i, Varint(num * 8 + 5), d);
      SkipTurn(data, i, depth, num, 5);
  }

  lemma {:induction false} SkipsGroup(data: Bytes, i: nat, depth: nat, f: Field)
    requires f.Group? && Ok(f) && At(data, i, Encode(f)) && |data| < I64
    ensures SkipFrom(data, i, depth) == SkipMore(data, i + |Encode(f)|, depth)
    decreases f, 0
  {
    hide Varint, ReadVarint, SkipFrom;
    var (open, body, close) := (Varint(f.num * 8 + 3), EncodeAll(f.fields), Varint(f.num * 8 + 4));
    AtSplit(data, i, open, body + close);
    AtSplit(data, i + |open|, body, close);
    SkipTurn(data, i, depth, f.num, 3);
    SkipTurn(data, i + |open| + |body|, depth + 1, f.num, 4);
    SkipsAll(data, i + |open|, depth + 1, f.fields);
  }

  lemma {:induction false} SkipsAll(data: Bytes, i: nat, depth: nat, fields: seq<Field>)
    requires forall k | 0 <= k < |fields| :: Ok(fields[k])
    requires depth > 0 && At(data, i, EncodeAll(fields)) && i + |EncodeAll(fields)| < |data| < I64
    ensures SkipMore(data, i, depth) == SkipMore(data, i + |EncodeAll(fields)|, depth)
    decreases fields
  {
    hide SkipFrom, Encode;
    if fields != [] {
      AtSplit(data, i, Encode(fields[0]), EncodeAll(fields[1..]));
      SkipsField(data, i, depth, fields[0]);
      SkipsAll(data, i + |Encode(fields[0])|, depth, fields[1..]);
    }
  }

  /** So an unknown field of any type is found to end where it ends. */
  lemma SkipInverts(data: Bytes, i: nat, f: Field)
    requires Ok(f) && i < |data| < I64 && At(data, i, Encode(f))
    ensures SkipField(data, i) == Result.Ok(i + |Encode(f)|)
  {
    hide SkipFrom, Encode;
    assert data[i..][..|Encode(f)|] == data[i..i + |Encode(f)|];
    SkipsField(data[i..], 0, 0, f);
  }
}
