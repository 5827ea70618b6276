/** The canonical paths that seeds are derived from, and the decoder that shows them to be unambiguous. */
module SeedPaths {
  import opened Options

  const VERSION: string := "llmsim.seed.v1"

  // ---------------------------------------------------------------- decimal numbers

  function Digit(d: nat): char
    requires d < 10
  {
    '0' + d as char
  }

  /** An integer in decimal, as the language prints it. */
  function Digits(n: nat): (s: string)
    ensures s != []
  {
    if n < 10 then [Digit(n)] else Digits(n / 10) + [Digit(n % 10)]
  }

  function Decimal(z: int): string {
    if z < 0 then "-" + Digits(-z) else Digits(z)
  }

  predicate IsDigit(c: char) {
    '0' <= c <= '9'
  }

  function Value(c: char): nat
    requires IsDigit(c)
  {
    (c - '0') as nat
  }

  function ParseNat(s: string): Option<nat> {
    if s == [] then None
    else
      var n := |s| - 1;
      if !IsDigit(s[n]) then None
      else if n == 0 then Some(Value(s[0]))
      else match ParseNat(s[..n])
        case None => None
        case Some(high) => Some(10 * high + Value(s[n]))
  }

  function ParseInt(s: string): Option<int> {
    if s != [] && s[0] == '-' then
      var n := ParseNat(s[1..]);
      if n.None? then None else Some(0 - n.value)
    else
      ParseNat(s)
  }

  lemma {:induction false} DigitsParse(n: nat)
    ensures ParseNat(Digits(n)) == Some(n)
    ensures forall k :: 0 <= k < |Digits(n)| ==> IsDigit(Digits(n)[k])
  {
    if n >= 10 {
      DigitsParse(n / 10);
      assert Digits(n)[..|Digits(n)| - 1] == Digits(n / 10);
    }
  }

  lemma DecimalParses(z: int)
    ensures ParseInt(Decimal(z)) == Some(z)
    ensures ':' !in Decimal(z)
  {
    DigitsParse(if z < 0 then -z else z);
    var digits := Digits(if z < 0 then -z else z);
    assert IsDigit(digits[0]);
    if z < 0 { assert Decimal(z)[1..] == digits; }
    assert forall k :: 0 <= k < |digits| ==> digits[k] != ':';
  }

  // ---------------------------------------------------------------- paths

  datatype PathError = NegativeConfig | NegativeReplication | NegativeShard
  datatype Result<+T> = Ok(value: T) | Err(error: PathError)

  function Joined(a: string, b: string, c: string): string {
    VERSION + ":" + a + ":" + b + ":" + c
  }

  /** `canonical_seed_path`. */
  function SeedPath(master: int, config: int, replication: int): Result<string> {
    if config < 0 then Err(NegativeConfig)
    else if replication < 0 then Err(NegativeReplication)
    else Ok(Joined(Decimal(master), Decimal(config), Decimal(replication)))
  }

  /** `canonical_shard_path`. */
  function ShardPath(master: int, shard: int): Result<string> {
    if shard < 0 then Err(NegativeShard) else Ok(Joined(Decimal(master), "pdes", Decimal(shard)))
  }

  // ---------------------------------------------------------------- the decoder

  /** The segments between colons. */
  function Segments(s: string): (r: seq<string>)
    ensures |r| >= 1
  {
    if s == [] then [""]
    else
      var rest := Segments(s[1..]);
      if s[0] == ':' then [""] + rest else [[s[0]] + rest[0]] + rest[1..]
  }

  lemma {:induction false} OneSegment(a: string)
    requires ':' !in a
    ensures Segments(a) == [a]
  {
    if a != [] {
      assert a == [a[0]] + a[1..];
      OneSegment(a[1..]);
      assert [a[0]] + a[1..] == a;
    }
  }

  lemma {:induction false} FirstSegment(a: string, rest: string)
    requires ':' !in a
    ensures Segments(a + ":" + rest) == [a] + Segments(rest)
    decreases |a|
  {
    var s := a + ":" + rest;
    if a == [] {
      assert s == [':'] + rest;
      assert s[1..] == rest;
    } else {
      assert s[1..] == a[1..] + ":" + rest;
      FirstSegment(a[1..], rest);
      assert [a[0]] + a[1..] == a;
    }
  }

  lemma JoinedSegments(a: string, b: string, c: string)
    requires ':' !in a && ':' !in b && ':' !in c
    ensures Segments(Joined(a, b, c)) == [VERSION, a, b, c]
  {
    var tail := b + ":" + c;
    assert Joined(a, b, c) == VERSION + ":" + (a + ":" + tail);
    FirstSegment(VERSION, a + ":" + tail);
    FirstSegment(a, tail);
    FirstSegment(b, c);
    OneSegment(c);
  }

  datatype Path = Replication(master: int, config: int, replication: int) | Shard(master: int, shard: int)

  function Decode(s: string): Option<Path> {
    var parts := Segments(s);
    if |parts| != 4 || parts[0] != VERSION then None
    else
      var master, last := ParseInt(parts[1]), ParseInt(parts[3]);
      if master.None? || last.None? then None
      else if parts[2] == "pdes" then Some(Shard(master.value, last.value))
      else
        var config := ParseInt(parts[2]);
        if config.None? then None else Some(Replication(master.value, config.value, last.value))
  }

  /** Decoding undoes printing, for every integer master and every index accepted. */
  lemma SeedPathDecodes(master: int, config: int, replication: int)
    ensures SeedPath(master, config, replication).Ok? <==> config >= 0 && replication >= 0
    ensures SeedPath(master, config, replication).Ok? ==>
      Decode(SeedPath(master, config, replication).value) == Some(Replication(master, config, replication))
  {
    DecimalParses(master);
    DecimalParses(config);
    DecimalParses(replication);
    JoinedSegments(Decimal(master), Decimal(config), Decimal(replication));
    NotPdes(config);
  }

  lemma NotPdes(z: int)
    ensures Decimal(z) != "pdes"
  {
    DigitsParse(if z < 0 then -z else z);
  }

  lemma ShardPathDecodes(master: int, shard: int)
    ensures ShardPath(master, shard).Ok? <==> shard >= 0
    ensures ShardPath(master, shard).Ok? ==> Decode(ShardPath(master, shard).value) == Some(Shard(master, shard))
  {
    DecimalParses(master);
    DecimalParses(shard);
    JoinedSegments(Decimal(master), "pdes", Decimal(shard));
  }

  /** Both paths are injective, and no path of one kind is one of the other. */
  lemma PathsUnambiguous(m1: int, c1: int, r1: int, m2: int, c2: int, r2: int, s1: int, s2: int)
    requires SeedPath(m1, c1, r1).Ok? && SeedPath(m2, c2, r2).Ok? && ShardPath(m1, s1).Ok? && ShardPath(m2, s2).Ok?
    ensures SeedPath(m1, c1, r1) == SeedPath(m2, c2, r2) ==> m1 == m2 && c1 == c2 && r1 == r2
    ensures ShardPath(m1, s1) == ShardPath(m2, s2) ==> m1 == m2 && s1 == s2
    ensures SeedPath(m1, c1, r1) != ShardPath(m2, s2)
  {
    SeedPathDecodes(m1, c1, r1);
    SeedPathDecodes(m2, c2, r2);
    ShardPathDecodes(m1, s1);
    ShardPathDecodes(m2, s2);
  }
}
