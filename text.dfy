/** Lines of text: counting, prefixes and the dashed separator. */
module Text {

  import opened Wrappers

  /** `"-" * n` in Python. */
  function Dashes(n: nat): (r: string)
    ensures |r| == n
    ensures forall i :: 0 <= i < n ==> r[i] == '-'
  {
    if n == 0 then "" else "-" + Dashes(n - 1)
  }

  /** The number of lines of `lines` equal to `l`. */
  function Count(lines: seq<string>, l: string): nat
  {
    if lines == [] then 0
    else (if lines[0] == l then 1 else 0) + Count(lines[1..], l)
  }

  lemma {:induction false} CountConcat(a: seq<string>, b: seq<string>, l: string)
    ensures Count(a + b, l) == Count(a, l) + Count(b, l)
  {
    if a == [] {
      assert a + b == b;
    } else {
      assert (a + b)[1..] == a[1..] + b;
      CountConcat(a[1..], b, l);
    }
  }

  lemma {:induction false} CountAbsent(lines: seq<string>, l: string)
    requires l !in lines
    ensures Count(lines, l) == 0
  {
    if lines != [] {
      CountAbsent(lines[1..], l);
    }
  }

  lemma AppendAssoc<T>(a: seq<T>, b: seq<T>, c: seq<T>)
    ensures (a + b) + c == a + (b + c)
  {
  }

  /** The rest of `s` after the prefix `p`, if `s` starts with `p`. */
  function StripPrefix(p: string, s: string): (r: Option<string>)
    ensures r.Some? ==> s == p + r.value
    ensures r.None? ==> forall x :: s != p + x
  {
    if |p| <= |s| && s[..|p|] == p then
      assert s == s[..|p|] + s[|p|..];
      Some(s[|p|..])
    else
      assert forall x :: (p + x)[..|p|] == p;
      None
  }

  lemma StripPrefixOf(p: string, x: string)
    ensures StripPrefix(p, p + x) == Some(x)
  {
  }

  /** A line that starts with `p` differs from `s` when `p` and `s` differ at some position. */
  lemma DiffersAt(p: string, x: string, s: string, k: nat)
    requires k < |p| && k < |s| && p[k] != s[k]
    ensures p + x != s
  {
  }
}
