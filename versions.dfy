/** Client and server version tuples and the document-store (SODA) feature
    gate of test/TestEnv.py: `SkipSodaTests` and `BaseTestCase.getSodaDatabase`.
    A version is a Python tuple of ints, here a `seq<int>`, compared the way
    Python compares tuples. */
module Versions {
  import opened Wrappers
  import opened PyStr

  /** Python's `a < b` on tuples of ints: the first differing component
      decides, and a proper prefix is smaller. */
  function Less(a: seq<int>, b: seq<int>): bool {
    if b == [] then false
    else if a == [] then true
    else if a[0] != b[0] then a[0] < b[0]
    else Less(a[1..], b[1..])
  }

  /** Python's `a <= b` on tuples. */
  predicate LessEq(a: seq<int>, b: seq<int>) {
    a == b || Less(a, b)
  }

  lemma {:induction false} LessIrreflexive(a: seq<int>)
    ensures !Less(a, a)
  {
    if a != [] {
      LessIrreflexive(a[1..]);
    }
  }

  lemma {:induction false} LessTransitive(a: seq<int>, b: seq<int>, c: seq<int>)
    requires Less(a, b) && Less(b, c)
    ensures Less(a, c)
  {
    if a != [] && a[0] == b[0] && b[0] == c[0] {
      LessTransitive(a[1..], b[1..], c[1..]);
    }
  }

  /** Any two different tuples are ordered one way or the other, and never both. */
  lemma {:induction false} LessTrichotomy(a: seq<int>, b: seq<int>)
    ensures a == b || Less(a, b) || Less(b, a)
    ensures !(Less(a, b) && Less(b, a))
  {
    if a != [] && b != [] && a[0] == b[0] {
      LessTrichotomy(a[1..], b[1..]);
      if a[1..] == b[1..] {
        assert a == [a[0]] + a[1..] && b == [b[0]] + b[1..];
      }
    }
  }

  /** `a <= b` is the same as `not (b < a)`. */
  lemma LessEqIsNotGreater(a: seq<int>, b: seq<int>)
    ensures LessEq(a, b) <==> !Less(b, a)
  {
    LessTrichotomy(a, b);
    LessIrreflexive(a);
  }

  /** On (major, minor) pairs the order is: major first, then minor. */
  lemma PairLess(a: seq<int>, b: seq<int>)
    requires |a| == 2 && |b| == 2
    ensures Less(a, b) <==> a[0] < b[0] || (a[0] == b[0] && a[1] < b[1])
  {
    if a[0] == b[0] {
      var a1, b1 := a[1..], b[1..];
      assert a1[1..] == [] && b1[1..] == [];
      assert Less(a, b) == Less(a1, b1);
      if a1[0] == b1[0] {
        assert !Less(a1[1..], b1[1..]);
      }
    }
  }

  /** `t[:2]`. */
  function Take2(t: seq<int>): seq<int> {
    if |t| <= 2 then t else t[..2]
  }

  /** `tuple(int(s) for s in parts)`: every component is converted, so one bad
      component anywhere makes the whole conversion raise. */
  function ParseAll(parts: seq<string>): (r: Option<seq<int>>)
    ensures r.Some? <==> forall k :: 0 <= k < |parts| ==> ParseInt(parts[k]).Some?
    ensures r.Some? ==> |r.value| == |parts|
                        && forall k :: 0 <= k < |parts| ==> ParseInt(parts[k]) == Some(r.value[k])
  {
    if parts == [] then Some([])
    else match ParseInt(parts[0])
      case None => None
      case Some(v) =>
        match ParseAll(parts[1..])
        case None => None
        case Some(vs) => Some([v] + vs)
  }

  /** `tuple(int(s) for s in version.split("."))[:2]`: it succeeds exactly
      when every dot-separated component is an integer literal, and then
      gives the values of the first two components. */
  function ParseVersion(version: string): (r: Option<seq<int>>)
    ensures r.Some? ==> forall k :: 0 <= k < |SplitOn(version, '.')| ==> ParseInt(SplitOn(version, '.')[k]).Some?
    ensures (forall k :: 0 <= k < |SplitOn(version, '.')| ==> ParseInt(SplitOn(version, '.')[k]).Some?) ==> r.Some?
    ensures r.Some? ==> |r.value| == (if |SplitOn(version, '.')| <= 2 then |SplitOn(version, '.')| else 2)
    ensures r.Some? ==> forall k :: 0 <= k < |r.value| ==> ParseInt(SplitOn(version, '.')[k]) == Some(r.value[k])
  {
    var parts := SplitOn(version, '.');
    match ParseAll(parts)
    case None => None
    case Some(vs) => Some(Take2(vs))
  }

  function ShowAll(vs: seq<int>): (r: seq<string>)
    ensures |r| == |vs| && forall k :: 0 <= k < |vs| ==> r[k] == Show(vs[k])
  {
    if vs == [] then [] else [Show(vs[0])] + ShowAll(vs[1..])
  }

  /** A version string written as dotted decimal components parses back to its
      first two components. */
  lemma ParseVersionOfDotted(vs: seq<int>)
    requires vs != []
    ensures ParseVersion(JoinWith(ShowAll(vs), '.')) == Some(Take2(vs))
  {
    var parts := ShowAll(vs);
    forall k | 0 <= k < |parts|
      ensures '.' !in parts[k] && ParseInt(parts[k]) == Some(vs[k])
    {
      ShowHasNoDot(vs[k]);
      ParseShow(vs[k]);
    }
    SplitJoin(parts, '.');
    var r := ParseAll(parts);
    assert r.value == vs;
  }

  /** The minimum client and server versions `SkipSodaTests` uses, which are
      also the defaults of `getSodaDatabase`. */
  const SodaMinClient: seq<int> := [18, 3]
  const SodaMinServer: seq<int> := [18, 0]
  /** Servers above this version are refused to clients below it. */
  const SodaCutoff: seq<int> := [20, 1]

  /** The three skip conditions of `SkipSodaTests`, over the client and
      server versions it obtained. */
  predicate SodaTestsSkipped(client: seq<int>, server: seq<int>) {
    Less(client, SodaMinClient) || Less(server, SodaMinServer)
    || (Less(SodaCutoff, server) && Less(client, SodaCutoff))
  }

  /** The tests run exactly when both minimums are met and the pair does not
      fall in the band "server above (20, 1), client below (20, 1)". */
  lemma SodaTestsRunIff(client: seq<int>, server: seq<int>)
    ensures !SodaTestsSkipped(client, server) <==>
              LessEq(SodaMinClient, client) && LessEq(SodaMinServer, server)
              && (LessEq(server, SodaCutoff) || LessEq(SodaCutoff, client))
  {
    LessEqIsNotGreater(SodaMinClient, client);
    LessEqIsNotGreater(SodaMinServer, server);
    LessEqIsNotGreater(server, SodaCutoff);
    LessEqIsNotGreater(SodaCutoff, client);
  }

  /** The examples the gate is documented with. */
  lemma SodaTestsExamples()
    ensures SodaTestsSkipped([19, 0], [20, 2])
    ensures !SodaTestsSkipped([18, 3], [18, 0])
    ensures SodaTestsSkipped([17, 0], [18, 0])
    ensures !SodaTestsSkipped([20, 1], [21, 0])
  {
  }

  /** What `getSodaDatabase` does before it opens the document store. */
  datatype Gate = Supported | Skipped | ParseFailed

  /** The gate of `getSodaDatabase(minclient, minserver)`: the client version
      is `clientversion()[:2]`; the server string is only parsed once the
      client has passed its minimum. */
  function SodaDatabaseGate(clientVersion: seq<int>, serverVersion: string,
                            minClient: seq<int>, minServer: seq<int>): (r: Gate)
    ensures Less(Take2(clientVersion), minClient) ==> r == Skipped
    ensures r == ParseFailed <==> !Less(Take2(clientVersion), minClient) && ParseVersion(serverVersion).None?
    ensures r == Skipped <==>
              var client := Take2(clientVersion);
              || Less(client, minClient)
              || (&& ParseVersion(serverVersion).Some?
                  && (|| Less(ParseVersion(serverVersion).value, minServer)
                      || (Less(SodaCutoff, ParseVersion(serverVersion).value) && Less(client, SodaCutoff))))
  {
    var client := Take2(clientVersion);
    if Less(client, minClient) then Skipped
    else match ParseVersion(serverVersion)
      case None => ParseFailed
      case Some(server) =>
        if Less(server, minServer) then Skipped
        else if Less(SodaCutoff, server) && Less(client, SodaCutoff) then Skipped
        else Supported
  }

  /** The document store is opened exactly when the client meets `minClient`,
      the server string parses to a version meeting `minServer`, and the pair
      is outside the incompatibility band. */
  lemma SodaDatabaseGateSupportedIff(clientVersion: seq<int>, serverVersion: string,
                                     minClient: seq<int>, minServer: seq<int>)
    ensures SodaDatabaseGate(clientVersion, serverVersion, minClient, minServer) == Supported <==>
              var client := Take2(clientVersion);
              && LessEq(minClient, client)
              && ParseVersion(serverVersion).Some?
              && LessEq(minServer, ParseVersion(serverVersion).value)
              && (LessEq(ParseVersion(serverVersion).value, SodaCutoff) || LessEq(SodaCutoff, client))
  {
    var client := Take2(clientVersion);
    LessEqIsNotGreater(minClient, client);
    LessEqIsNotGreater(SodaCutoff, client);
    if ParseVersion(serverVersion).Some? {
      var server := ParseVersion(serverVersion).value;
      LessEqIsNotGreater(minServer, server);
      LessEqIsNotGreater(server, SodaCutoff);
    }
  }

  /** With its default minimums, `getSodaDatabase` skips exactly when
      `SkipSodaTests` would, for the same client version and the same server
      version string; a client below the minimum is skipped without the
      server string being looked at. */
  lemma SodaGatesAgree(clientVersion: seq<int>, serverVersion: string)
    ensures Less(Take2(clientVersion), SodaMinClient) ==>
              SodaDatabaseGate(clientVersion, serverVersion, SodaMinClient, SodaMinServer) == Skipped
    ensures ParseVersion(serverVersion).Some? ==>
              (SodaDatabaseGate(clientVersion, serverVersion, SodaMinClient, SodaMinServer) == Skipped
               <==> SodaTestsSkipped(Take2(clientVersion), ParseVersion(serverVersion).value))
    ensures (SodaDatabaseGate(clientVersion, serverVersion, SodaMinClient, SodaMinServer) == ParseFailed)
            <==> !Less(Take2(clientVersion), SodaMinClient) && ParseVersion(serverVersion).None?
  {
  }
}
