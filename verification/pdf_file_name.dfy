/**
  The name the order PDF is saved under (src/utils/pdfGenerator.ts):
  `BeltOrder_<name>_<date>.pdf`, where the name is the customer name with
  everything but ASCII letters and digits removed, or `Customer` when
  nothing is left.  The date text comes from the clock and is a parameter.
*/
module PdfFileName {
  import opened Text

  const Prefix: string := "BeltOrder_"
  const Suffix: string := ".pdf"
  const Fallback: string := "Customer"

  /** The customer name reduced to letters and digits, never empty. */
  function SafeName(name: string): (r: string)
    ensures |r| > 0
    ensures forall i :: 0 <= i < |r| ==> IsAlnum(r[i])
    ensures |KeepAlnum(name)| > 0 ==> r == KeepAlnum(name)
    ensures |KeepAlnum(name)| == 0 ==> r == Fallback
  {
    var kept := KeepAlnum(name);
    if |kept| == 0 then Fallback else kept
  }

  /** The fallback name passes the filter unchanged. */
  lemma FallbackIsAlnum()
    ensures forall i :: 0 <= i < |Fallback| ==> IsAlnum(Fallback[i])
    ensures KeepAlnum(Fallback) == Fallback
  {
    KeepAlnumIdentity(Fallback);
  }

  /** A name made only of letters and digits is used as it is, and so
      reducing a name twice is reducing it once. */
  lemma SafeNameIdempotent(name: string)
    ensures (|name| > 0 && forall i :: 0 <= i < |name| ==> IsAlnum(name[i])) ==> SafeName(name) == name
    ensures SafeName(SafeName(name)) == SafeName(name)
  {
    KeepAlnumIdentity(SafeName(name));
    if |name| > 0 && forall i :: 0 <= i < |name| ==> IsAlnum(name[i]) {
      KeepAlnumIdentity(name);
    }
  }

  /** A character of the name is in the safe name exactly when it is a letter
      or digit, unless the name has none and the fallback is used. */
  lemma SafeNameMembers(name: string, c: char)
    ensures (exists i :: 0 <= i < |name| && IsAlnum(name[i])) ==> (c in SafeName(name) <==> c in name && IsAlnum(c))
    ensures (forall i :: 0 <= i < |name| ==> !IsAlnum(name[i])) ==> SafeName(name) == Fallback
  {
    KeepAlnumMembers(name, c);
    if exists i :: 0 <= i < |name| && IsAlnum(name[i]) {
      var i :| 0 <= i < |name| && IsAlnum(name[i]);
      KeepAlnumMembers(name, name[i]);
    }
    if forall i :: 0 <= i < |name| ==> !IsAlnum(name[i]) {
      if |KeepAlnum(name)| > 0 {
        KeepAlnumMembers(name, KeepAlnum(name)[0]);
      }
    }
  }

  /** The saved file name. */
  function FileName(name: string, date: string): (r: string)
    ensures |r| == |Prefix| + |SafeName(name)| + 1 + |date| + |Suffix|
  {
    Prefix + SafeName(name) + "_" + date + Suffix
  }

  /** The characters of `s` before its first underscore. */
  function BeforeUnderscore(s: string): (r: string)
    ensures |r| <= |s| && r == s[..|r|]
    ensures forall i :: 0 <= i < |r| ==> r[i] != '_'
    ensures |r| < |s| ==> s[|r|] == '_'
  {
    if |s| == 0 || s[0] == '_' then [] else [s[0]] + BeforeUnderscore(s[1..])
  }

  /** Text without underscores followed by an underscore is read back
      whole. */
  lemma {:induction false} BeforeUnderscoreOf(a: string, b: string)
    requires forall i :: 0 <= i < |a| ==> a[i] != '_'
    ensures BeforeUnderscore(a + "_" + b) == a
    decreases |a|
  {
    if |a| > 0 {
      assert (a + "_" + b)[1..] == a[1..] + "_" + b;
      BeforeUnderscoreOf(a[1..], b);
      assert a == [a[0]] + a[1..];
    }
  }

  /** The parts of `p + n + "_" + d + x` can be read back when `n` has no
      underscore. */
  lemma PartsLayout(p: string, n: string, d: string, x: string)
    requires forall i :: 0 <= i < |n| ==> n[i] != '_'
    ensures var r := p + n + "_" + d + x;
      && r[..|p|] == p
      && r[|r| - |x|..] == x
      && BeforeUnderscore(r[|p|..]) == n
      && r[|p| + |n| + 1..|r| - |x|] == d
  {
    var r := p + n + "_" + d + x;
    assert r[|p|..] == n + "_" + (d + x);
    BeforeUnderscoreOf(n, d + x);
  }

  /** The customer part and the date can be read back from a file name: the
      name is everything after the prefix up to the next underscore, the
      date what lies between it and the extension. */
  lemma FileNameParts(name: string, date: string)
    ensures var r := FileName(name, date);
      && r[..|Prefix|] == Prefix
      && r[|r| - |Suffix|..] == Suffix
      && BeforeUnderscore(r[|Prefix|..]) == SafeName(name)
      && r[|Prefix| + |SafeName(name)| + 1..|r| - |Suffix|] == date
  {
    var sn := SafeName(name);
    forall i | 0 <= i < |sn|
      ensures sn[i] != '_'
    {
      assert IsAlnum(sn[i]);
    }
    PartsLayout(Prefix, sn, date, Suffix);
  }
}
