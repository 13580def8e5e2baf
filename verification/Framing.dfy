/** Length-delimited hashing: `stable_sha256` in `domain/serialization.py` and the idempotency key in
    `orchestrator/validation.py`.  The hash function, stripping and JSON encoding are inputs. */
module Framing {
  import opened Wrappers
  import opened Utf8

  datatype Part = Text(text: string) | Raw(data: seq<Byte>)

  datatype KeyError = TooLong | EmptyToolName | EmptySeed

  function DataOf(p: Part): seq<Byte> {
    match p
    case Text(t) => Encode(t)
    case Raw(d) => d
  }

  // ---------- Eight bytes, most significant first ----------

  function Pow256(k: nat): nat {
    if k == 0 then 1 else 256 * Pow256(k - 1)
  }

  function BigEndian(n: nat, k: nat): (r: seq<Byte>)
    ensures |r| == k
  {
    if k == 0 then [] else BigEndian(n / 256, k - 1) + [n % 256]
  }

  function FromBigEndian(b: seq<Byte>): nat {
    if b == [] then 0 else FromBigEndian(b[..|b| - 1]) * 256 + b[|b| - 1]
  }

  lemma {:induction false} BigEndianInverts(n: nat, k: nat)
    requires n < Pow256(k)
    ensures FromBigEndian(BigEndian(n, k)) == n
  {
    if k > 0 {
      BigEndianInverts(n / 256, k - 1);
      assert BigEndian(n, k)[..k - 1] == BigEndian(n / 256, k - 1);
    }
  }

  lemma {:induction false} FromBigEndianInverts(b: seq<Byte>)
    ensures FromBigEndian(b) < Pow256(|b|)
    ensures BigEndian(FromBigEndian(b), |b|) == b
  {
    if b != [] {
      FromBigEndianInverts(b[..|b| - 1]);
      var n: int, last: int := FromBigEndian(b[..|b| - 1]), b[|b| - 1];
      assert (n * 256 + last) / 256 == n && (n * 256 + last) % 256 == last;
      assert b == b[..|b| - 1] + [b[|b| - 1]];
    }
  }

  // ---------- The stream ----------

  predicate Short(data: seq<Byte>) {
    |data| < Pow256(8)
  }

  ghost predicate AllShort(parts: seq<seq<Byte>>) {
    forall i :: 0 <= i < |parts| ==> Short(parts[i])
  }

  /** What the hasher is fed: each part after its length. */
  function Framed(parts: seq<seq<Byte>>): seq<Byte> {
    if parts == [] then [] else BigEndian(|parts[0]|, 8) + parts[0] + Framed(parts[1..])
  }

  function DataOfAll(parts: seq<Part>): (r: seq<seq<Byte>>)
    ensures |r| == |parts| && forall i :: 0 <= i < |parts| ==> r[i] == DataOf(parts[i])
  {
    seq(|parts|, i requires 0 <= i < |parts| => DataOf(parts[i]))
  }

  /** A length that does not fit in eight bytes raises. */
  method StableHash(parts: seq<Part>, hash: seq<Byte> -> string) returns (r: Result<string, KeyError>)
    ensures r.Ok? <==> AllShort(DataOfAll(parts))
    ensures r.Ok? ==> r.value == hash(Framed(DataOfAll(parts)))
    ensures r.Err? ==> r.error == TooLong
  {
    var stream: seq<Byte> := [];
    ghost var all := DataOfAll(parts);
    for i := 0 to |parts|
      invariant stream + Framed(all[i..]) == Framed(all)
      invariant forall k :: 0 <= k < i ==> Short(all[k])
    {
      var data := DataOf(parts[i]);
      assert data == all[i];
      if |data| >= Pow256(8) {
        assert !Short(all[i]);
        return Err(TooLong);
      }
      assert all[i..][1..] == all[i + 1..];
      assert stream + (BigEndian(|data|, 8) + data + Framed(all[i + 1..]))
          == (stream + BigEndian(|data|, 8) + data) + Framed(all[i + 1..]);
      stream := stream + BigEndian(|data|, 8) + data;
    }
    assert stream == Framed(all);
    return Ok(hash(stream));
  }

  // ---------- The stream can be taken apart ----------

  /** Reads a stream back into parts; nothing if it is not one. */
  function Unframe(b: seq<Byte>): Option<seq<seq<Byte>>>
    decreases |b|
  {
    if b == [] then Some([])
    else if |b| < 8 then None
    else
      var length := FromBigEndian(b[..8]);
      if length > |b| - 8 then None
      else
        match Unframe(b[8 + length..])
        case None => None
        case Some(rest) => Some([b[8..8 + length]] + rest)
  }

  lemma {:induction false} UnframeInverts(parts: seq<seq<Byte>>)
    requires AllShort(parts)
    ensures Unframe(Framed(parts)) == Some(parts)
  {
    if parts != [] {
      var first, rest := parts[0], parts[1..];
      assert Short(first);
      BigEndianInverts(|first|, 8);
      UnframeInverts(rest);
      hide BigEndian, FromBigEndian;
      var head, b := BigEndian(|first|, 8), Framed(parts);
      assert b == head + first + Framed(rest);
      assert b[..8] == head && b[8..8 + |first|] == first && b[8 + |first|..] == Framed(rest);
      hide Framed;
      assert Unframe(b) == Some([first] + rest);
      assert [first] + rest == parts;
    }
  }

  /** Every stream that can be taken apart is the framing of its parts. */
  lemma {:induction false} FramedInverts(b: seq<Byte>)
    requires Unframe(b).Some?
    ensures AllShort(Unframe(b).value) && Framed(Unframe(b).value) == b
    decreases |b|
  {
    if b != [] {
      var head := b[..8];
      var length := FromBigEndian(head);
      FromBigEndianInverts(head);
      hide BigEndian, FromBigEndian, Pow256;
      var data, tail := b[8..8 + length], b[8 + length..];
      FramedInverts(tail);
      FramedCons(data, Unframe(tail).value);
      assert Short(data);
      assert b == head + data + tail;
    }
  }

  lemma FramedCons(data: seq<Byte>, rest: seq<seq<Byte>>)
    ensures Framed([data] + rest) == BigEndian(|data|, 8) + data + Framed(rest)
  {
    assert ([data] + rest)[1..] == rest;
  }

  /** Different lists of parts have different streams. */
  lemma FramingInjective(a: seq<seq<Byte>>, b: seq<seq<Byte>>)
    requires AllShort(a) && AllShort(b) && Framed(a) == Framed(b)
    ensures a == b
  {
    UnframeInverts(a);
    UnframeInverts(b);
  }

  // ---------- Idempotency keys ----------

  function KeyParts(toolName: string, argsJson: string, seed: string): seq<seq<Byte>> {
    [Encode(toolName), Encode(argsJson), Encode(seed)]
  }

  method ComputeIdempotencyKey(
    toolName: string, argsJson: string, seed: string, strip: string -> string, hash: seq<Byte> -> string)
    returns (r: Result<string, KeyError>)
    ensures var parts := KeyParts(strip(toolName), argsJson, strip(seed));
            if strip(toolName) == "" then r == Err(EmptyToolName)
            else if strip(seed) == "" then r == Err(EmptySeed)
            else if !AllShort(parts) then r == Err(TooLong)
            else r == Ok(hash(Framed(parts)))
  {
    var tool, normalizedSeed := strip(toolName), strip(seed);
    if tool == "" {
      return Err(EmptyToolName);
    }
    if normalizedSeed == "" {
      return Err(EmptySeed);
    }
    var parts := [Text(tool), Text(argsJson), Text(normalizedSeed)];
    assert DataOfAll(parts) == KeyParts(tool, argsJson, normalizedSeed);
    r := StableHash(parts, hash);
  }

  /** Two keys coincide only for the same tool, arguments and seed, or because the hash maps two different
      streams to one value. */
  lemma KeysCoincide(
    tool1: string, args1: string, seed1: string, tool2: string, args2: string, seed2: string,
    hash: seq<Byte> -> string)
    requires var p1, p2 := KeyParts(tool1, args1, seed1), KeyParts(tool2, args2, seed2);
             AllShort(p1) && AllShort(p2) && hash(Framed(p1)) == hash(Framed(p2))
    ensures || (tool1 == tool2 && args1 == args2 && seed1 == seed2)
            || Framed(KeyParts(tool1, args1, seed1)) != Framed(KeyParts(tool2, args2, seed2))
  {
    var p1, p2 := KeyParts(tool1, args1, seed1), KeyParts(tool2, args2, seed2);
    if Framed(p1) == Framed(p2) {
      FramingInjective(p1, p2);
      assert p1[0] == p2[0] && p1[1] == p2[1] && p1[2] == p2[2];
      EncodeInjective(tool1, tool2);
      EncodeInjective(args1, args2);
      EncodeInjective(seed1, seed2);
    }
  }
}
