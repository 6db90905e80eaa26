/** Composite string keys joined with colons, and how they come apart again. */
module Names {

  predicate ColonFree(s: string) {
    ':' !in s
  }

  /** The position of the first colon, or the length if there is none. */
  function FirstColon(s: string): (n: nat)
    ensures n <= |s|
    ensures n < |s| ==> s[n] == ':'
  {
    if s == "" then 0 else if s[0] == ':' then 0 else 1 + FirstColon(s[1..])
  }

  lemma {:induction false} ColonAfter(name: string, rest: string)
    requires ColonFree(name)
    ensures FirstColon(name + ":" + rest) == |name|
  {
    var s := name + ":" + rest;
    if name != "" {
      assert s[1..] == name[1..] + ":" + rest;
      ColonAfter(name[1..], rest);
    }
  }

  lemma {:induction false} NoColon(name: string)
    requires ColonFree(name)
    ensures FirstColon(name) == |name|
  {
    if name != "" {
      NoColon(name[1..]);
    }
  }

  /** A colon-free name at the start of a key is read back with the rest of the key. */
  lemma HeadAndRest(n1: string, rest1: string, n2: string, rest2: string)
    requires ColonFree(n1) && ColonFree(n2) && n1 + ":" + rest1 == n2 + ":" + rest2
    ensures n1 == n2 && rest1 == rest2
  {
    ColonAfter(n1, rest1);
    ColonAfter(n2, rest2);
    var k := n1 + ":" + rest1;
    assert k[..|n1|] == n1 && k[..|n2|] == n2;
    assert k[|n1| + 1..] == rest1 && k[|n2| + 1..] == rest2;
  }

  /** A key starts with the prefix of a name exactly when that name is its head. */
  lemma PrefixMeansHead(n1: string, n2: string, rest: string)
    requires ColonFree(n1) && ColonFree(n2)
    ensures n1 + ":" <= n2 + ":" + rest <==> n1 == n2
  {
    var k := n2 + ":" + rest;
    if n1 + ":" <= k {
      var tail := k[|n1| + 1..];
      assert k == n1 + ":" + tail;
      HeadAndRest(n1, tail, n2, rest);
    } else {
      assert n2 + ":" <= k;
    }
  }

  /** The parts of a key between its colons. */
  function Split(s: string): (parts: seq<string>)
    ensures parts != []
    decreases |s|
  {
    var k := FirstColon(s);
    if k == |s| then [s] else [s[..k]] + Split(s[k + 1..])
  }

  lemma SplitHead(name: string, rest: string)
    requires ColonFree(name)
    ensures Split(name + ":" + rest) == [name] + Split(rest)
  {
    var s := name + ":" + rest;
    ColonAfter(name, rest);
    assert s[..|name|] == name && s[|name| + 1..] == rest;
  }

  lemma SplitName(name: string)
    requires ColonFree(name)
    ensures Split(name) == [name]
  {
    NoColon(name);
  }

  /** A key is determined by its parts. */
  lemma {:induction false} SplitInjective(k: string, l: string)
    requires Split(k) == Split(l)
    ensures k == l
    decreases |k|
  {
    var i, j := FirstColon(k), FirstColon(l);
    if i < |k| && j < |l| {
      assert Split(k)[1..] == Split(k[i + 1..]) && Split(l)[1..] == Split(l[j + 1..]);
      SplitInjective(k[i + 1..], l[j + 1..]);
      CutAtColon(k);
      CutAtColon(l);
    }
  }

  /** The first parts of a key, the last of at most `n` holding the rest. */
  function SplitN(s: string, n: nat): (parts: seq<string>)
    ensures parts != []
    decreases n
  {
    var k := FirstColon(s);
    if n <= 1 || k == |s| then [s] else [s[..k]] + SplitN(s[k + 1..], n - 1)
  }

  lemma CutAtColon(s: string)
    requires FirstColon(s) < |s|
    ensures s == s[..FirstColon(s)] + ":" + s[FirstColon(s) + 1..]
  {
    CutAt(s, FirstColon(s));
  }

  lemma CutAt(s: string, k: nat)
    requires k < |s| && s[k] == ':'
    ensures s == s[..k] + ":" + s[k + 1..]
  {
    var t := s[..k] + ":" + s[k + 1..];
    assert |t| == |s|;
    forall i | 0 <= i < |s| ensures t[i] == s[i] {
    }
  }

  lemma TwoParts(s: string)
    requires |SplitN(s, 2)| == 2
    ensures s == SplitN(s, 2)[0] + ":" + SplitN(s, 2)[1]
  {
    CutAtColon(s);
    assert SplitN(s[FirstColon(s) + 1..], 1) == [s[FirstColon(s) + 1..]];
  }

  /** Three parts are the whole key. */
  lemma ThreeParts(s: string)
    requires |SplitN(s, 3)| == 3
    ensures s == SplitN(s, 3)[0] + ":" + (SplitN(s, 3)[1] + ":" + SplitN(s, 3)[2])
    ensures SplitN(s, 3)[0] == s[..FirstColon(s)]
  {
    CutAtColon(s);
    TwoParts(s[FirstColon(s) + 1..]);
  }

  lemma {:induction false} FirstColonInPrefix(pre: string, s: string)
    requires pre <= s && FirstColon(pre) < |pre|
    ensures FirstColon(s) == FirstColon(pre)
  {
    if pre[0] != ':' {
      assert pre[1..] <= s[1..];
      FirstColonInPrefix(pre[1..], s[1..]);
    }
  }

  /** Keys of the same run with the same further parts are the same key. */
  lemma SameRunSameParts(run: string, k: string, l: string)
    requires run + ":" <= k && run + ":" <= l
    requires |SplitN(k, 3)| == 3 && |SplitN(l, 3)| == 3 && SplitN(k, 3)[1..] == SplitN(l, 3)[1..]
    ensures k == l
  {
    var pre := run + ":";
    ThreeParts(k);
    ThreeParts(l);
    FirstColonFound(run);
    FirstColonInPrefix(pre, k);
    FirstColonInPrefix(pre, l);
    assert k[..FirstColon(k)] == pre[..FirstColon(pre)] == l[..FirstColon(l)];
    assert SplitN(k, 3)[1] == SplitN(k, 3)[1..][0] && SplitN(k, 3)[2] == SplitN(k, 3)[1..][1];
    assert SplitN(l, 3)[1] == SplitN(l, 3)[1..][0] && SplitN(l, 3)[2] == SplitN(l, 3)[1..][1];
  }

  lemma {:induction false} FirstColonFound(run: string)
    ensures FirstColon(run + ":") < |run + ":"|
  {
    var s := run + ":";
    if run != "" {
      assert s[1..] == run[1..] + ":";
      FirstColonFound(run[1..]);
    }
  }

  lemma {:induction false} BeforeFirstColon(s: string)
    ensures ColonFree(s[..FirstColon(s)])
  {
    if s != "" && s[0] != ':' {
      BeforeFirstColon(s[1..]);
      assert s[..FirstColon(s)] == [s[0]] + s[1..][..FirstColon(s[1..])];
    }
  }

  /** A name has one part exactly when it has no colon. */
  lemma OnePart(s: string)
    ensures |Split(s)| == 1 <==> ColonFree(s)
    ensures ColonFree(s) ==> Split(s) == [s]
  {
    BeforeFirstColon(s);
    assert s[..|s|] == s;
    if ColonFree(s) {
      SplitName(s);
    }
  }

  lemma JoinedHasColon(name: string, rest: string)
    ensures !ColonFree(name + ":" + rest)
  {
    assert (name + ":" + rest)[|name|] == ':';
  }
}
