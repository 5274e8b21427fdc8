/** The string operations of scripts/pump.py that several of its parts use. */
module PumpText {

  /** The characters that `str.strip` removes. */
  predicate IsSpace(c: char) {
    c == ' ' || c == '\t' || c == '\n' || c == '\r' || c == '\U{0B}' || c == '\U{0C}'
  }

  predicate Blank(s: string) {
    forall i :: 0 <= i < |s| ==> IsSpace(s[i])
  }

  function LStrip(s: string): (r: string)
    ensures |r| <= |s|
    ensures r == "" || !IsSpace(r[0])
  {
    if s != "" && IsSpace(s[0]) then LStrip(s[1..]) else s
  }

  function RStrip(s: string): (r: string)
    ensures |r| <= |s|
    ensures r == "" || !IsSpace(r[|r| - 1])
  {
    if s != "" && IsSpace(s[|s| - 1]) then RStrip(s[..|s| - 1]) else s
  }

  function Strip(s: string): string {
    RStrip(LStrip(s))
  }

  const WHITE := " \t\n\r\U{0B}\U{0C}"

  lemma SpaceIsWhite(c: char)
    ensures IsSpace(c) <==> c in WHITE
  {
    assert WHITE[0] == ' ' && WHITE[1] == '\t' && WHITE[2] == '\n';
    assert WHITE[3] == '\r' && WHITE[4] == '\U{0B}' && WHITE[5] == '\U{0C}';
  }

  /** Stripping takes off just the white space at either end. */
  lemma {:induction false} StripsWhite(s: string) returns (n: nat, m: nat)
    ensures n <= m <= |s| && Strip(s) == s[n..m]
    ensures forall i :: 0 <= i < n || m <= i < |s| ==> s[i] in WHITE
    ensures n < m ==> s[n] !in WHITE && s[m - 1] !in WHITE
    decreases |s|
  {
    if s != "" && IsSpace(s[0]) {
      n, m := StripsWhite(s[1..]);
      SpaceIsWhite(s[0]);
      assert s[1..][n..m] == s[n + 1..m + 1];
      forall i | 0 <= i < n + 1 || m + 1 <= i < |s| ensures s[i] in WHITE {
        assert i > 0 ==> s[i] == s[1..][i - 1];
      }
      assert n < m ==> s[n + 1] == s[1..][n] && s[m] == s[1..][m - 1];
      n, m := n + 1, m + 1;
    } else {
      n := 0;
      m := StripsEnd(s);
      assert s[0..m] == s[..m];
      if s != "" {
        SpaceIsWhite(s[0]);
      }
    }
  }

  lemma {:induction false} StripsEnd(s: string) returns (m: nat)
    ensures m <= |s| && RStrip(s) == s[..m]
    ensures forall i :: m <= i < |s| ==> s[i] in WHITE
    ensures m > 0 ==> s[m - 1] !in WHITE
    decreases |s|
  {
    if s == "" {
      m := 0;
    } else {
      var n := |s| - 1;
      SpaceIsWhite(s[n]);
      if IsSpace(s[n]) {
        m := StripsEnd(s[..n]);
        assert s[..n][..m] == s[..m];
        forall i | m <= i < |s| ensures s[i] in WHITE {
          assert i < n ==> s[i] == s[..n][i];
        }
      } else {
        m := |s|;
        assert s[..m] == s;
      }
    }
  }
}
