/** Room names carry the workflow's and the session's id; the worker reads the latter back. */
module RoomNames {
  import opened Wrappers

  /** Python's split on one character: always at least one part. */
  function Split(s: string, dash: char): (parts: seq<string>)
    ensures |parts| >= 1
  {
    if s == "" then [""]
    else
      var rest := Split(s[1..], dash);
      if s[0] == dash then [""] + rest else [[s[0]] + rest[0]] + rest[1..]
  }

  function Join(parts: seq<string>, dash: char): string {
    if parts == [] then ""
    else if |parts| == 1 then parts[0]
    else parts[0] + [dash] + Join(parts[1..], dash)
  }

  function Count(s: string, c: char): nat {
    if s == "" then 0 else (if s[0] == c then 1 else 0) + Count(s[1..], c)
  }

  lemma {:induction false} SplitLength(s: string, dash: char)
    ensures |Split(s, dash)| == Count(s, dash) + 1
  {
    if s != "" {
      SplitLength(s[1..], dash);
    }
  }

  /** Joining undoes splitting. */
  lemma {:induction false} JoinSplit(s: string, dash: char)
    ensures Join(Split(s, dash), dash) == s
  {
    if s != "" {
      JoinSplit(s[1..], dash);
      var parts, rest := Split(s, dash), Split(s[1..], dash);
      if s[0] == dash {
        assert parts[1..] == rest;
        assert s == [dash] + s[1..];
      } else if |rest| == 1 {
        assert s == [s[0]] + s[1..];
      } else {
        assert parts[1..] == rest[1..];
        assert s == [s[0]] + s[1..];
        assert [s[0]] + (rest[0] + [dash] + Join(rest[1..], dash)) ==
          ([s[0]] + rest[0]) + [dash] + Join(rest[1..], dash);
      }
    }
  }

  /** Splitting at a dash splits both sides separately. */
  lemma {:induction false} SplitAround(prefix: string, suffix: string, dash: char)
    ensures Split(prefix + [dash] + suffix, dash) == Split(prefix, dash) + Split(suffix, dash)
  {
    var whole, tail := prefix + [dash] + suffix, Split(suffix, dash);
    if prefix == "" {
      assert whole[1..] == suffix;
    } else {
      SplitAround(prefix[1..], suffix, dash);
      assert whole[1..] == prefix[1..] + [dash] + suffix;
      SplitGlue(prefix[0], Split(prefix[1..], dash), tail);
    }
  }

  lemma SplitGlue(c: char, rest: seq<string>, tail: seq<string>)
    requires rest != []
    ensures [""] + (rest + tail) == ([""] + rest) + tail
    ensures [[c] + (rest + tail)[0]] + (rest + tail)[1..] == ([[c] + rest[0]] + rest[1..]) + tail
  {
  }

  /** Whatever comes before it, a suffix with `n` dashes is the last `n + 1` parts joined. */
  lemma LastPartsAreSuffix(prefix: string, suffix: string, dash: char)
    ensures var parts, n := Split(prefix + [dash] + suffix, dash), Count(suffix, dash) + 1;
      n <= |parts| && Join(parts[|parts| - n..], dash) == suffix
  {
    SplitAround(prefix, suffix, dash);
    SplitLength(suffix, dash);
    JoinSplit(suffix, dash);
    var parts, n := Split(prefix + [dash] + suffix, dash), Count(suffix, dash) + 1;
    assert parts[|parts| - n..] == Split(suffix, dash);
  }

  // Uuids and their canonical text.

  const HEX := "0123456789abcdef"

  /** A uuid as its 32 hexadecimal digits. */
  type Uuid = u: seq<nat> | |u| == 32 && forall i :: 0 <= i < |u| ==> u[i] < 16
    witness seq(32, i => 0)

  function Digits(u: seq<nat>): (r: string)
    requires forall i :: 0 <= i < |u| ==> u[i] < 16
    ensures |r| == |u| && forall i :: 0 <= i < |u| ==> r[i] == HEX[u[i]]
  {
    seq(|u|, i requires 0 <= i < |u| => HEX[u[i]])
  }

  /** Groups of 8, 4, 4, 4 and 12 digits. */
  function Canonical(u: Uuid): string {
    Digits(u[..8]) + "-" +
    (Digits(u[8..12]) + "-" + (Digits(u[12..16]) + "-" + (Digits(u[16..20]) + "-" + Digits(u[20..]))))
  }

  function HexValue(c: char): Option<nat> {
    if '0' <= c <= '9' then Some((c as int - '0' as int) as nat)
    else if 'a' <= c <= 'f' then Some((c as int - 'a' as int + 10) as nat)
    else if 'A' <= c <= 'F' then Some((c as int - 'A' as int + 10) as nat)
    else None
  }

  function WithoutDashes(s: string): string {
    if s == "" then "" else (if s[0] == '-' then "" else [s[0]]) + WithoutDashes(s[1..])
  }

  function HexDigits(s: string): Option<seq<nat>> {
    if s == "" then Some([])
    else
      match (HexValue(s[0]), HexDigits(s[1..]))
      case (Some(d), Some(rest)) => Some([d] + rest)
      case _ => None
  }

  /** Reading a uuid ignores dashes and wants 32 digits. */
  function ParseUuid(s: string): Option<seq<nat>> {
    var digits := WithoutDashes(s);
    if |digits| != 32 then None else HexDigits(digits)
  }

  function RoomName(workflow: Uuid, session: Uuid): string {
    "workflow-" + Canonical(workflow) + "-" + Canonical(session)
  }

  /** The session id in a room's name: its last five dash-separated parts. */
  function ParseSessionId(room: Option<string>): Option<seq<nat>> {
    if room.None? || room.value == "" then None
    else
      var parts := Split(room.value, '-');
      if |parts| < 5 then None else ParseUuid(Join(parts[|parts| - 5..], '-'))
  }

  lemma HexDigitsAreNoDash(n: nat)
    requires n < 16
    ensures HEX[n] != '-' && HexValue(HEX[n]) == Some(n)
  {
  }

  lemma {:induction false} CountAppend(a: string, b: string, c: char)
    ensures Count(a + b, c) == Count(a, c) + Count(b, c)
  {
    if a == "" {
      assert a + b == b;
    } else {
      assert (a + b)[1..] == a[1..] + b;
      CountAppend(a[1..], b, c);
    }
  }

  lemma {:induction false} WithoutDashesAppend(a: string, b: string)
    ensures WithoutDashes(a + b) == WithoutDashes(a) + WithoutDashes(b)
  {
    if a == "" {
      assert a + b == b;
    } else {
      assert (a + b)[1..] == a[1..] + b;
      WithoutDashesAppend(a[1..], b);
    }
  }

  lemma {:induction false} DigitsAreDigits(u: seq<nat>)
    requires forall i :: 0 <= i < |u| ==> u[i] < 16
    ensures Count(Digits(u), '-') == 0 && WithoutDashes(Digits(u)) == Digits(u) && HexDigits(Digits(u)) == Some(u)
  {
    if u != [] {
      DigitsAreDigits(u[1..]);
      HexDigitsAreNoDash(u[0]);
      assert Digits(u)[1..] == Digits(u[1..]);
      assert [u[0]] + u[1..] == u;
      assert [Digits(u)[0]] + Digits(u[1..]) == Digits(u);
    }
  }

  /** One group of digits and a dash in front of some text. */
  lemma GroupBefore(u: seq<nat>, rest: string)
    requires forall i :: 0 <= i < |u| ==> u[i] < 16
    ensures Count(Digits(u) + "-" + rest, '-') == 1 + Count(rest, '-')
    ensures WithoutDashes(Digits(u) + "-" + rest) == Digits(u) + WithoutDashes(rest)
  {
    DigitsAreDigits(u);
    CountAppend(Digits(u) + "-", rest, '-');
    CountAppend(Digits(u), "-", '-');
    WithoutDashesAppend(Digits(u) + "-", rest);
    WithoutDashesAppend(Digits(u), "-");
    assert Count("-", '-') == 1 + Count("", '-');
    assert WithoutDashes("-") == WithoutDashes("");
  }

  lemma DigitsSplit(u: seq<nat>, k: nat)
    requires k <= |u| && forall i :: 0 <= i < |u| ==> u[i] < 16
    ensures Digits(u) == Digits(u[..k]) + Digits(u[k..])
  {
  }

  lemma GroupsAreDigits(u: Uuid)
    ensures Digits(u) ==
      Digits(u[..8]) + (Digits(u[8..12]) + (Digits(u[12..16]) + (Digits(u[16..20]) + Digits(u[20..]))))
  {
    DigitsSplit(u, 8);
    DigitsSplit(u[8..], 4);
    assert u[8..][..4] == u[8..12] && u[8..][4..] == u[12..];
    DigitsSplit(u[12..], 4);
    assert u[12..][..4] == u[12..16] && u[12..][4..] == u[16..];
    DigitsSplit(u[16..], 4);
    assert u[16..][..4] == u[16..20] && u[16..][4..] == u[20..];
  }

  lemma CanonicalShape(u: Uuid)
    ensures Count(Canonical(u), '-') == 4 && WithoutDashes(Canonical(u)) == Digits(u)
  {
    var e := Digits(u[20..]);
    var d := Digits(u[16..20]) + "-" + e;
    var c := Digits(u[12..16]) + "-" + d;
    var b := Digits(u[8..12]) + "-" + c;
    DigitsAreDigits(u[20..]);
    GroupBefore(u[16..20], e);
    GroupBefore(u[12..16], d);
    GroupBefore(u[8..12], c);
    GroupBefore(u[..8], b);
    GroupsAreDigits(u);
  }

  predicate IsHexDigit(c: char) {
    '0' <= c <= '9' || 'a' <= c <= 'f'
  }

  /** The canonical text has 36 characters: lower-case hexadecimal digits, and dashes after 8, 12, 16 and 20
      of them. */
  lemma CanonicalText(u: Uuid)
    ensures |Canonical(u)| == 36
    ensures forall i :: 0 <= i < 36 ==>
      if i in {8, 13, 18, 23} then Canonical(u)[i] == '-' else IsHexDigit(Canonical(u)[i])
  {
    forall n | 0 <= n < 16 ensures IsHexDigit(HEX[n]) {
    }
  }

  /** A room's name says what it is, then the workflow, then the session. */
  lemma RoomNameText(workflow: Uuid, session: Uuid)
    ensures var name := RoomName(workflow, session);
      && |name| == 82 && name[..9] == "workflow-" && name[9..45] == Canonical(workflow)
      && name[45] == '-' && name[46..] == Canonical(session)
  {
    CanonicalText(workflow);
    CanonicalText(session);
  }

  /** A uuid's canonical text reads back as the uuid. */
  lemma ParseCanonical(u: Uuid)
    ensures ParseUuid(Canonical(u)) == Some(u)
  {
    CanonicalShape(u);
    DigitsAreDigits(u);
  }

  /** The worker reads back the session id the service put into the room's name. */
  lemma RoomNameRoundTrip(workflow: Uuid, session: Uuid)
    ensures ParseSessionId(Some(RoomName(workflow, session))) == Some(session)
  {
    var prefix, suffix := "workflow-" + Canonical(workflow), Canonical(session);
    CanonicalShape(session);
    LastPartsAreSuffix(prefix, suffix, '-');
    assert RoomName(workflow, session) == prefix + ['-'] + suffix;
    ParseCanonical(session);
  }
}
