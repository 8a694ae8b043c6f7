/** The server-address settings page: which IP and port texts its form
    accepts, the values it starts from, and what saving writes. */
module CustomPortPage {
  import opened Decimal
  import Storage

  const IpKey := "serverIP"
  const PortKey := "serverPort"
  const DefaultIp := "192.168.100.10"
  const DefaultPort := "8080"

  // The IP pattern, one alternative of the group at a time.

  /** `25[0-5]` */
  predicate Octet250To255(g: string) {
    |g| == 3 && g[0] == '2' && g[1] == '5' && '0' <= g[2] <= '5'
  }

  /** `2[0-4][0-9]` */
  predicate Octet200To249(g: string) {
    |g| == 3 && g[0] == '2' && '0' <= g[1] <= '4' && IsDigit(g[2])
  }

  /** `[01]?[0-9][0-9]?`: one to three characters; an optional leading 0 or 1,
      one digit, and an optional digit. */
  predicate OctetUpTo199(g: string) {
    (|g| == 1 && IsDigit(g[0])) ||
    (|g| == 2 && IsDigit(g[0]) && IsDigit(g[1])) ||
    (|g| == 3 && (g[0] == '0' || g[0] == '1') && IsDigit(g[1]) && IsDigit(g[2]))
  }

  /** One dotted-quad group: `25[0-5]|2[0-4][0-9]|[01]?[0-9][0-9]?`. */
  predicate Octet(g: string) {
    Octet250To255(g) || Octet200To249(g) || OctetUpTo199(g)
  }

  /** The text holds no '.'. */
  predicate NoDot(s: string) {
    forall i :: 0 <= i < |s| ==> s[i] != '.'
  }

  /** The index of the first '.', or the length when there is none. */
  function DotIndex(s: string): (i: nat)
    ensures i <= |s| && NoDot(s[..i])
    ensures i < |s| ==> s[i] == '.'
  {
    if s == [] || s[0] == '.' then 0
    else
      var j := DotIndex(s[1..]);
      assert s[..j + 1] == [s[0]] + s[1..][..j];
      1 + j
  }

  /** A position with no dot before it, holding a dot or the end, is the
      one DotIndex finds. */
  lemma DotIndexAt(s: string, i: nat)
    requires i <= |s| && NoDot(s[..i])
    requires i < |s| ==> s[i] == '.'
    ensures DotIndex(s) == i
  {
    NoDotBefore(s, i);
    NoDotBefore(s, DotIndex(s));
  }

  lemma NoDotBefore(s: string, n: nat)
    requires n <= |s| && NoDot(s[..n])
    ensures forall k :: 0 <= k < n ==> s[k] != '.'
  {
    forall k | 0 <= k < n ensures s[k] != '.' {
      assert s[..n][k] == s[k];
    }

  }

  /** The text between dots: never an empty list, and no part holds a dot. */
  function SplitDots(s: string): (parts: seq<string>)
    ensures |parts| >= 1
    ensures forall k :: 0 <= k < |parts| ==> NoDot(parts[k])
    decreases |s|
  {
    var i := DotIndex(s);
    if i == |s| then
      assert s[..i] == s;
      [s]
    else [s[..i]] + SplitDots(s[i + 1..])
  }

  /** Parts joined with dots between them. */
  function JoinDots(parts: seq<string>): string
    requires |parts| >= 1
  {
    if |parts| == 1 then parts[0] else parts[0] + "." + JoinDots(parts[1..])
  }

  lemma {:induction false} JoinSplit(s: string)
    ensures JoinDots(SplitDots(s)) == s
    decreases |s|
  {
    var i := DotIndex(s);
    if i < |s| {
      JoinSplit(s[i + 1..]);
      assert ([s[..i]] + SplitDots(s[i + 1..]))[1..] == SplitDots(s[i + 1..]);
      assert s == s[..i] + "." + s[i + 1..];
    } else {
      assert s[..i] == s;
    }
  }

  lemma {:induction false} SplitJoin(parts: seq<string>)
    requires |parts| >= 1
    requires forall k :: 0 <= k < |parts| ==> NoDot(parts[k])
    ensures SplitDots(JoinDots(parts)) == parts
  {
    if |parts| == 1 {
      DotIndexAt(parts[0], |parts[0]|);
    } else {
      var rest := JoinDots(parts[1..]);
      var s := parts[0] + "." + rest;
      var i := |parts[0]|;
      assert s[..i] == parts[0];
      DotIndexAt(s, i);
      assert s[i + 1..] == rest;
      SplitJoin(parts[1..]);
    }
  }

  /** The IP field's pattern, matched against the whole value: exactly four
      dot-separated groups, each an Octet. */
  predicate IsIpAddress(s: string) {
    var parts := SplitDots(s);
    |parts| == 4 && forall k :: 0 <= k < 4 ==> Octet(parts[k])
  }

  /** The port field's pattern `^\d+$`: one or more ASCII digits. */
  predicate IsPort(s: string) {
    s != [] && AllDigits(s)
  }

  /** Constraint validation of a `required` field with a `pattern`: an empty
      value is missing, and only a non-empty value can mismatch the pattern. */
  predicate FieldValid(value: string, matches: bool) {
    var valueMissing := value == "";
    var patternMismatch := value != "" && !matches;
    !valueMissing && !patternMismatch
  }

  /** The form can be submitted: both fields pass constraint validation. */
  predicate FormAccepts(ip: string, port: string) {
    FieldValid(ip, IsIpAddress(ip)) && FieldValid(port, IsPort(port))
  }

  /** The value the IP field starts from. */
  function InitialIp(items: map<string, string>): string {
    Storage.ItemOr(items, IpKey, DefaultIp)
  }

  /** The value the port field starts from. */
  function InitialPort(items: map<string, string>): string {
    Storage.ItemOr(items, PortKey, DefaultPort)
  }

  // Properties of the acceptance rules.

  /** The group pattern accepts exactly the texts of one to three digits
      that denote 0 to 255, leading zeros included. */
  lemma OctetIsByte(g: string)
    ensures Octet(g) <==> 1 <= |g| <= 3 && AllDigits(g) && Value(g) <= 255
  {
    if |g| == 3 && AllDigits(g) {
      ValueOfThree(g);
    } else if |g| == 2 && AllDigits(g) {
      ValueOfTwo(g);
    } else if |g| == 1 && AllDigits(g) {
      assert g[..0] == [];
    }
  }

  /** Four groups joined with dots are accepted. */
  lemma FourOctetsAccepted(a: string, b: string, c: string, d: string, s: string)
    requires Octet(a) && Octet(b) && Octet(c) && Octet(d)
    requires s == a + "." + b + "." + c + "." + d
    ensures SplitDots(s) == [a, b, c, d]
    ensures IsIpAddress(s)
  {
    DigitsHaveNoDot(a); DigitsHaveNoDot(b); DigitsHaveNoDot(c); DigitsHaveNoDot(d);
    var parts := [a, b, c, d];
    SplitJoin(parts);
    JoinFour(parts);
  }

  lemma DigitsHaveNoDot(g: string)
    requires Octet(g)
    ensures NoDot(g)
  {
  }

  /** Three parts joined, written out. */
  lemma JoinThree(q: seq<string>)
    requires |q| == 3
    ensures JoinDots(q) == q[0] + "." + q[1] + "." + q[2]
  {
    assert q[1..][1..] == [q[2]];
    assert JoinDots(q[1..]) == q[1] + "." + q[2];
    assert JoinDots(q) == q[0] + "." + (q[1] + "." + q[2]);
  }

  /** Four parts joined, written out. */
  lemma JoinFour(p: seq<string>)
    requires |p| == 4
    ensures JoinDots(p) == p[0] + "." + p[1] + "." + p[2] + "." + p[3]
  {
    assert p[1..][1..][1..] == [p[3]];
    assert JoinDots(p[2..]) == p[2] + "." + p[3];
    assert p[1..][1..] == p[2..];
    assert JoinDots(p[1..]) == p[1] + "." + (p[2] + "." + p[3]);
    assert JoinDots(p) == p[0] + "." + (p[1] + "." + (p[2] + "." + p[3]));
  }

  /** An accepted IP is four groups, each denoting 0 to 255, with a dot
      between each two and nothing before or after. */
  lemma AcceptedIpIsFourBytes(s: string)
    requires IsIpAddress(s)
    ensures var p := SplitDots(s);
      s == p[0] + "." + p[1] + "." + p[2] + "." + p[3] &&
      forall k :: 0 <= k < 4 ==> 1 <= |p[k]| <= 3 && AllDigits(p[k]) && Value(p[k]) <= 255
  {
    var p := SplitDots(s);
    JoinSplit(s);
    JoinFour(p);
    forall k | 0 <= k < 4 ensures 1 <= |p[k]| <= 3 && AllDigits(p[k]) && Value(p[k]) <= 255 {
      OctetIsByte(p[k]);
    }
  }

  /** The group pattern: leading zeros are fine, a value above 255 or a
      fourth digit is not. */
  lemma OctetExamples()
    ensures Octet("010") && Octet("001") && Octet("255")
    ensures !Octet("256") && !Octet("0000") && !Octet("")
  {
  }

  /** Splitting at dots turns a dot-join into a concatenation of splits. */
  lemma {:induction false} SplitAtDot(x: string, y: string)
    ensures SplitDots(x + "." + y) == SplitDots(x) + SplitDots(y)
    decreases |x|
  {
    var s := x + "." + y;
    var i := DotIndex(x);
    assert s[..i] == x[..i];
    DotIndexAt(s, i);
    if i < |x| {
      assert s[i + 1..] == x[i + 1..] + "." + y;
      SplitAtDot(x[i + 1..], y);
    } else {
      assert x[..i] == x;
      assert s[i + 1..] == y;
    }
  }

  /** The match is anchored: an accepted IP starts and ends with a digit, so
      leading or trailing text such as a space or a dot is rejected. */
  lemma AcceptedIpEdges(s: string)
    requires IsIpAddress(s)
    ensures s != "" && IsDigit(s[0]) && IsDigit(s[|s| - 1])
    ensures 7 <= |s| <= 15
  {
    var p := SplitDots(s);
    AcceptedIpIsFourBytes(s);
    assert s == p[0] + ("." + p[1] + "." + p[2] + "." + p[3]);
    assert s == (p[0] + "." + p[1] + "." + p[2] + ".") + p[3];
  }

  /** A fifth group after an accepted IP is rejected. */
  lemma FifthGroupRejected(s: string, t: string)
    requires IsIpAddress(s)
    ensures !IsIpAddress(s + "." + t)
  {
    SplitAtDot(s, t);
  }

  /** Three groups are rejected, even when each is a valid group. */
  lemma ThreeGroupsRejected(a: string, b: string, c: string, s: string)
    requires NoDot(a) && NoDot(b) && NoDot(c)
    requires s == a + "." + b + "." + c
    ensures !IsIpAddress(s)
  {
    var q := [a, b, c];
    JoinThree(q);
    SplitJoin(q);
    assert SplitDots(s) == q;
  }

  /** Both fields are required and both patterns reject the empty text, so
      the form accepts exactly an accepted IP with a digits-only port. */
  lemma FormAcceptsIff(ip: string, port: string)
    ensures FormAccepts(ip, port) <==> IsIpAddress(ip) && IsPort(port)
    ensures !FormAccepts("", port) && !FormAccepts(ip, "")
  {
  }

  /** The port pattern has no range check: every rendered number passes,
      "0" and "99999" included. */
  lemma EveryNumberIsAPort(n: nat)
    ensures IsPort(Render(n))
    ensures IsPort("0") && IsPort("99999")
  {
  }

  lemma DefaultIpGroups()
    ensures Octet("192") && Octet("168") && Octet("100") && Octet("10")
    ensures DefaultIp == "192" + "." + "168" + "." + "100" + "." + "10"
  {
  }

  /** The default port satisfies the port pattern. */
  lemma DefaultPortAccepted()
    ensures IsPort(DefaultPort)
  {
  }

  /** The default IP satisfies the IP pattern. */
  lemma DefaultIpAccepted()
    ensures IsIpAddress(DefaultIp)
  {
    DefaultIpGroups();
    FourOctetsAccepted("192", "168", "100", "10", DefaultIp);
  }

  /** A field starts from the stored value when one is stored and non-empty,
      and from its default otherwise. */
  lemma InitialValues(items: map<string, string>)
    ensures IpKey in items && items[IpKey] != "" ==> InitialIp(items) == items[IpKey]
    ensures !(IpKey in items && items[IpKey] != "") ==> InitialIp(items) == DefaultIp
    ensures PortKey in items && items[PortKey] != "" ==> InitialPort(items) == items[PortKey]
    ensures !(PortKey in items && items[PortKey] != "") ==> InitialPort(items) == DefaultPort
    ensures InitialIp(items) != "" && InitialPort(items) != ""
  {
  }

  /** After saving accepted values, reopening the page shows exactly them. */
  lemma SavedValuesReload(items: map<string, string>, ip: string, port: string)
    requires FormAccepts(ip, port)
    ensures InitialIp(items[IpKey := ip][PortKey := port]) == ip
    ensures InitialPort(items[IpKey := ip][PortKey := port]) == port
  {
  }

  /** The page's two editable fields. */
  class ConfigForm {
    var ip: string
    var port: string

    /** The lazy initialisers: stored values, or the defaults. */
    constructor (storage: Storage.LocalStorage)
      ensures ip == InitialIp(storage.items) && port == InitialPort(storage.items)
    {
      ip := Storage.ItemOr(storage.items, IpKey, DefaultIp);
      port := Storage.ItemOr(storage.items, PortKey, DefaultPort);
    }

    /** Typing in the IP field. */
    method SetIp(value: string)
      modifies this`ip
      ensures ip == value
    {
      ip := value;
    }

    /** Typing in the port field. */
    method SetPort(value: string)
      modifies this`port
      ensures port == value
    {
      port := value;
    }

    /** The submit handler: the two fields are written, IP first, and no
        other key changes. */
    method HandleSubmit(storage: Storage.LocalStorage)
      modifies storage
      ensures storage.items == old(storage.items)[IpKey := ip][PortKey := port]
      ensures storage.items.Keys == old(storage.items).Keys + {IpKey, PortKey}
      ensures forall k :: k in old(storage.items) && k != IpKey && k != PortKey ==>
        storage.items[k] == old(storage.items)[k]
    {
      storage.SetItem(IpKey, ip);
      storage.SetItem(PortKey, port);
    }

    /** Pressing save: the browser runs the handler only when both fields
        pass constraint validation; otherwise storage stays as it was. */
    method Submit(storage: Storage.LocalStorage) returns (submitted: bool)
      modifies storage
      ensures submitted == FormAccepts(ip, port)
      ensures storage.items == if submitted then old(storage.items)[IpKey := ip][PortKey := port]
                               else old(storage.items)
    {
      submitted := FormAccepts(ip, port);
      if submitted {
        HandleSubmit(storage);
      }
    }
  }
}
