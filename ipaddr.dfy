/**
 * The IPv4 dotted-quad heuristic and the connection-string harvester of the
 * signal extractor (`looksLikeIP`, `extractIPsFromConnectionString`).
 */
module IPAddr {
  import opened GoStrings

  predicate IsDigit(c: char) {
    '0' <= c <= '9'
  }

  /** One part of a dotted quad: one to three ASCII digits. There is no 0..255 range check. */
  predicate Octet(p: string) {
    1 <= |p| <= 3 && forall c :: c in p ==> IsDigit(c)
  }

  /** `looksLikeIP`: exactly three dots, and each of the four parts is an octet. */
  predicate LooksLikeIP(s: string) {
    && Count(s, '.') == 3
    && var parts := Split(s, '.');
    && |parts| == 4
    && forall p :: p in parts ==> Octet(p)
  }

  function Dotted(a: string, b: string, c: string, d: string): string {
    a + "." + b + "." + c + "." + d
  }

  /** An accepted string is four octets joined by dots (and those octets are its parts). */
  lemma {:induction false} LooksLikeIPSound(s: string)
    requires LooksLikeIP(s)
    ensures var p := Split(s, '.');
      && |p| == 4 && Octet(p[0]) && Octet(p[1]) && Octet(p[2]) && Octet(p[3])
      && s == Dotted(p[0], p[1], p[2], p[3])
  {
    SplitProperties(s, '.');
    var p := Split(s, '.');
    JoinFour(p);
    assert p[0] in p && p[1] in p && p[2] in p && p[3] in p;
  }

  /** Four parts joined by dots. */
  lemma {:induction false} JoinFour(p: seq<string>)
    requires |p| == 4
    ensures Join(p, '.') == Dotted(p[0], p[1], p[2], p[3])
  {
    var q := p[1..][1..];
    assert q == [p[2], p[3]] && q[1..] == [p[3]];
    assert Join(q, '.') == p[2] + "." + p[3];
    assert Join(p[1..], '.') == p[1] + "." + (p[2] + "." + p[3]);
  }

  /** Every four octets joined by dots are accepted, whatever their value ("999.999.999.999" too). */
  lemma {:induction false} LooksLikeIPComplete(a: string, b: string, c: string, d: string)
    requires Octet(a) && Octet(b) && Octet(c) && Octet(d)
    ensures LooksLikeIP(Dotted(a, b, c, d))
  {
    assert !IsDigit('.');
    var s := Dotted(a, b, c, d);
    var y := c + "." + d;
    var x := b + "." + y;
    SplitNoSeparator(d, '.');
    SplitAfterFirst(c, '.', d);
    SplitAfterFirst(b, '.', y);
    SplitAfterFirst(a, '.', x);
    assert s == a + ['.'] + x;
    assert x == b + ['.'] + y;
    assert y == c + ['.'] + d;
    assert Split(y, '.') == [c, d];
    assert Split(x, '.') == [b, c, d];
    assert Split(s, '.') == [a, b, c, d];
    SplitProperties(s, '.');
  }

  /** An accepted string is made of digits and dots only. */
  lemma {:induction false} LooksLikeIPChars(s: string)
    requires LooksLikeIP(s)
    ensures forall ch :: ch in s ==> ch == '.' || IsDigit(ch)
    ensures |s| >= 7 && IsDigit(s[0]) && IsDigit(s[|s| - 1])
  {
    LooksLikeIPSound(s);
    var p := Split(s, '.');
    assert s == p[0] + "." + p[1] + "." + p[2] + "." + p[3];
    assert s[0] == p[0][0];
    assert s[|s| - 1] == p[3][|p[3]| - 1];
  }

  /** There is no range check: "999.999.999.999" is accepted like "10.0.3.4". */
  lemma {:induction false} AcceptsOutOfRangeOctets()
    ensures LooksLikeIP("999.999.999.999")
    ensures LooksLikeIP("10.0.3.4")
  {
    assert Octet("999") && Octet("10") && Octet("0") && Octet("3") && Octet("4");
    LooksLikeIPComplete("999", "999", "999", "999");
    assert Dotted("999", "999", "999", "999") == "999.999.999.999";
    LooksLikeIPComplete("10", "0", "3", "4");
    assert Dotted("10", "0", "3", "4") == "10.0.3.4";
  }

  /** Three parts, or a part of four digits, are rejected. */
  lemma {:induction false} RejectsMalformed()
    ensures !LooksLikeIP("1.2.3")
    ensures !LooksLikeIP("1234.1.1.1")
  {
    SplitNoSeparator("3", '.');
    SplitAfterFirst("2", '.', "3");
    assert "2.3" == "2" + ['.'] + "3";
    SplitAfterFirst("1", '.', "2.3");
    assert "1.2.3" == "1" + ['.'] + "2.3";
    assert |Split("1.2.3", '.')| == 3;
    SplitAfterFirst("1234", '.', "1.1.1");
    assert "1234.1.1.1" == "1234" + ['.'] + "1.1.1";
    assert Split("1234.1.1.1", '.')[0] == "1234";
    assert !Octet("1234");
  }

  /** The delimiters a connection string is split by, in the order they are tried. */
  const ConnDelimiters: seq<char> := [':', '/', '@', ',']

  /** The trimmed pieces that look like addresses, in piece order. */
  function PieceIPs(parts: seq<string>): seq<string> {
    if parts == [] then []
    else
      var piece := TrimSpace(parts[|parts| - 1]);
      PieceIPs(parts[..|parts| - 1]) + (if LooksLikeIP(piece) then [piece] else [])
  }

  /** The harvest for the delimiters `ds`, one delimiter after another. */
  function DelimiterIPs(s: string, ds: seq<char>): seq<string> {
    if ds == [] then [] else DelimiterIPs(s, ds[..|ds| - 1]) + PieceIPs(Split(s, ds[|ds| - 1]))
  }

  function ConnStringIPs(s: string): seq<string> {
    DelimiterIPs(s, ConnDelimiters)
  }

  /** `extractIPsFromConnectionString`: split by each delimiter in turn, trim, keep what looks like an address. */
  method ExtractIPsFromConnectionString(connStr: string) returns (ips: seq<string>)
    ensures ips == ConnStringIPs(connStr)
    ensures forall x :: x in ips ==> LooksLikeIP(x)
  {
    ips := [];
    for k := 0 to |ConnDelimiters|
      invariant ips == DelimiterIPs(connStr, ConnDelimiters[..k])
    {
      var parts := Split(connStr, ConnDelimiters[k]);
      ghost var before := ips;
      for n := 0 to |parts|
        invariant ips == before + PieceIPs(parts[..n])
      {
        var part := TrimSpace(parts[n]);
        if LooksLikeIP(part) {
          ips := ips + [part];
        }
        assert parts[..n + 1][..n] == parts[..n];
      }
      assert parts[..|parts|] == parts;
      assert ConnDelimiters[..k + 1][..k] == ConnDelimiters[..k];
    }
    assert ConnDelimiters[..4] == ConnDelimiters;
    ConnStringIPsValid(connStr);
  }

  lemma {:induction false} PieceIPsValid(parts: seq<string>)
    ensures forall x :: x in PieceIPs(parts) ==> LooksLikeIP(x) && exists p :: p in parts && x == TrimSpace(p)
  {
    if parts != [] {
      var front := parts[..|parts| - 1];
      PieceIPsValid(front);
      forall x | x in PieceIPs(parts)
        ensures LooksLikeIP(x) && exists p :: p in parts && x == TrimSpace(p)
      {
        if x in PieceIPs(front) {
          var p :| p in front && x == TrimSpace(p);
          assert p in parts;
        } else {
          assert parts[|parts| - 1] in parts;
        }
      }
    }
  }

  /** `x` is the trimmed form of some piece of `s` split by one of `ds`. */
  predicate TrimmedPieceOf(x: string, s: string, ds: seq<char>) {
    exists i :: 0 <= i < |ds| && exists p :: p in Split(s, ds[i]) && x == TrimSpace(p)
  }

  lemma {:induction false} DelimiterIPsValid(s: string, ds: seq<char>)
    ensures forall x :: x in DelimiterIPs(s, ds) ==> LooksLikeIP(x) && TrimmedPieceOf(x, s, ds)
  {
    if ds != [] {
      var n := |ds| - 1;
      var front := ds[..n];
      DelimiterIPsValid(s, front);
      PieceIPsValid(Split(s, ds[n]));
      forall x | x in DelimiterIPs(s, ds)
        ensures LooksLikeIP(x) && TrimmedPieceOf(x, s, ds)
      {
        if x in DelimiterIPs(s, front) {
          var i :| 0 <= i < |front| && exists p :: p in Split(s, front[i]) && x == TrimSpace(p);
          assert ds[i] == front[i];
        } else {
          assert x in PieceIPs(Split(s, ds[n]));
        }
      }
    }
  }

  /** Every harvested string looks like an address and is a trimmed piece of one of the four splits. */
  lemma {:induction false} ConnStringIPsValid(s: string)
    ensures forall x :: x in ConnStringIPs(s) ==> LooksLikeIP(x) && TrimmedPieceOf(x, s, ConnDelimiters)
  {
    DelimiterIPsValid(s, ConnDelimiters);
  }

  lemma {:induction false} DelimiterIPsOfBare(s: string, ds: seq<char>)
    requires LooksLikeIP(s) && TrimSpace(s) == s
    requires forall i :: 0 <= i < |ds| ==> ds[i] !in s
    ensures DelimiterIPs(s, ds) == seq(|ds|, _ => s)
  {
    if ds != [] {
      var n := |ds| - 1;
      DelimiterIPsOfBare(s, ds[..n]);
      SplitNoSeparator(s, ds[n]);
      assert PieceIPs([s]) == [s];
    }
  }

  /** A bare address contains none of the delimiters, so each of the four splits returns it once. */
  lemma {:induction false} BareAddressHarvestedFourTimes(s: string)
    requires LooksLikeIP(s)
    ensures ConnStringIPs(s) == [s, s, s, s]
  {
    LooksLikeIPChars(s);
    assert !IsSpace(s[0]) && !IsSpace(s[|s| - 1]);
    TrimSpaceUnchanged(s);
    DelimiterIPsOfBare(s, ConnDelimiters);
  }
}
