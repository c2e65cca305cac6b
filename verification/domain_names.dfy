/** Label splitting of domain names and the "top domain" the context derives
    from the first order identifier (FreeCertContext.GetTopDomainAsync). */
module DomainNames {
  import opened Failures
  import opened Sequences

  const Dot: char := '.'

  /** `String.Split('.')` without options: always at least one label, empty
      labels kept, one more label than there are dots. */
  function Split(s: string): (labels: seq<string>)
    ensures |labels| == Count(s, Dot) + 1
  {
    if |s| == 0 then [""]
    else
      var rest := Split(s[1..]);
      if s[0] == Dot then [""] + rest
      else [[s[0]] + rest[0]] + rest[1..]
  }

  /** The labels glued back together with dots. */
  function Join(labels: seq<string>): string
    requires |labels| >= 1
  {
    if |labels| == 1 then labels[0] else labels[0] + [Dot] + Join(labels[1..])
  }

  /** No label holds a dot. */
  lemma {:induction false} SplitLabelsDotFree(s: string)
    ensures forall i :: 0 <= i < |Split(s)| ==> Dot !in Split(s)[i]
  {
    if |s| > 0 {
      SplitLabelsDotFree(s[1..]);
      var rest := Split(s[1..]);
      if s[0] != Dot {
        assert Dot !in [s[0]] + rest[0];
        forall i | 0 <= i < |Split(s)| ensures Dot !in Split(s)[i] {
          if i > 0 { assert Split(s)[i] == rest[i]; }
        }
      }
    }
  }

  /** One step of the split, for a name written as its first character and
      the rest. */
  lemma SplitCons(c: char, t: string)
    ensures Split([c] + t) == if c == Dot then [""] + Split(t) else [[c] + Split(t)[0]] + Split(t)[1..]
  {
    assert ([c] + t)[1..] == t;
  }

  /** Joining the labels of a name gives the name back. */
  lemma {:induction false} JoinSplit(s: string)
    ensures Join(Split(s)) == s
  {
    if |s| > 0 {
      var t := s[1..];
      assert s == [s[0]] + t;
      SplitCons(s[0], t);
      JoinSplit(t);
      var rest := Split(t);
      var labels := Split(s);
      if s[0] == Dot {
        assert labels[1..] == rest;
        assert Join(labels) == "" + [Dot] + Join(rest);
      } else if |rest| == 1 {
        assert labels == [[s[0]] + rest[0]];
      } else {
        assert labels[1..] == rest[1..];
        assert Join(rest) == rest[0] + [Dot] + Join(rest[1..]);
        assert Join(labels) == [s[0]] + rest[0] + [Dot] + Join(rest[1..]);
      }
    }
  }

  lemma {:induction false} SplitNoDot(w: string)
    requires Dot !in w
    ensures Split(w) == [w]
  {
    if |w| > 0 {
      assert w == [w[0]] + w[1..];
      SplitCons(w[0], w[1..]);
      SplitNoDot(w[1..]);
    }
  }

  lemma {:induction false} SplitLabelDot(w: string, t: string)
    requires Dot !in w
    ensures Split(w + [Dot] + t) == [w] + Split(t)
  {
    if |w| == 0 {
      assert w + [Dot] + t == [Dot] + t;
      SplitCons(Dot, t);
    } else {
      var tail := w[1..] + [Dot] + t;
      assert w + [Dot] + t == [w[0]] + tail;
      SplitCons(w[0], tail);
      SplitLabelDot(w[1..], t);
      assert Split(tail) == [w[1..]] + Split(t);
      assert [w[0]] + w[1..] == w;
    }
  }

  /** Splitting dot-free labels that were joined gives the labels back. */
  lemma {:induction false} SplitJoin(labels: seq<string>)
    requires |labels| >= 1
    requires forall i :: 0 <= i < |labels| ==> Dot !in labels[i]
    ensures Split(Join(labels)) == labels
  {
    if |labels| == 1 {
      SplitNoDot(labels[0]);
    } else {
      SplitJoin(labels[1..]);
      SplitLabelDot(labels[0], Join(labels[1..]));
      assert labels == [labels[0]] + labels[1..];
    }
  }

  lemma {:induction false} JoinAppend(a: seq<string>, b: seq<string>)
    requires |a| >= 1 && |b| >= 1
    ensures Join(a + b) == Join(a) + [Dot] + Join(b)
  {
    if |a| == 1 {
      assert (a + b)[1..] == b;
    } else {
      assert (a + b)[1..] == a[1..] + b;
      JoinAppend(a[1..], b);
    }
  }

  /** The top domain of the first requested identifier: its last two labels
      joined by a dot. `First()` throws on an empty list and the array index
      `Length - 2` throws when the name has no dot. */
  function TopDomainOf(domains: seq<string>): (r: Result<string>)
    ensures r.Ok? <==> |domains| > 0 && Dot in domains[0]
    ensures r.Err? ==> r.error == (if |domains| == 0 then NoElements else IndexOutOfRange)
  {
    if |domains| == 0 then Err(NoElements) else LastTwo(Split(domains[0]))
  }

  /** The last two labels joined by a dot; fewer than two labels make the
      index `Length - 2` fall outside the array. */
  function LastTwo(labels: seq<string>): (r: Result<string>)
    ensures r.Ok? <==> |labels| >= 2
    ensures r.Err? ==> r.error == IndexOutOfRange
  {
    if |labels| < 2 then Err(IndexOutOfRange)
    else Ok(labels[|labels| - 2] + [Dot] + labels[|labels| - 1])
  }

  /** `t` is a suffix of `s` that starts at a label boundary and holds exactly
      one dot: the last two labels of `s`. */
  ghost predicate IsTopDomain(t: string, s: string)
  {
    && Count(t, Dot) == 1
    && |t| <= |s|
    && s[|s| - |t|..] == t
    && (|t| == |s| || s[|s| - |t| - 1] == Dot)
  }

  lemma OneDot(a: string, b: string)
    requires Dot !in a && Dot !in b
    ensures Count(a + [Dot] + b, Dot) == 1
  {
    CountAppend(a + [Dot], b, Dot);
    CountAppend(a, [Dot], Dot);
  }

  lemma JoinLastTwo(labels: seq<string>)
    requires |labels| >= 2
    ensures var n := |labels|;
      var t := labels[n - 2] + [Dot] + labels[n - 1];
      Join(labels) == if n == 2 then t else Join(labels[..n - 2]) + [Dot] + t
  {
    var n := |labels|;
    var last := labels[n - 2..];
    assert last[1..] == [labels[n - 1]];
    if n > 2 {
      JoinAppend(labels[..n - 2], last);
      assert labels[..n - 2] + last == labels;
    } else {
      assert last == labels;
    }
  }

  /** What the derivation computes: the last two labels of the first name. */
  lemma TopDomainIsLastTwoLabels(domains: seq<string>)
    requires TopDomainOf(domains).Ok?
    ensures IsTopDomain(TopDomainOf(domains).value, domains[0])
  {
    var s := domains[0];
    var labels := Split(s);
    var n := |labels|;
    var t := TopDomainOf(domains).value;
    JoinSplit(s);
    SplitLabelsDotFree(s);
    OneDot(labels[n - 2], labels[n - 1]);
    JoinLastTwo(labels);
    if n > 2 {
      var p := Join(labels[..n - 2]) + [Dot];
      assert s == p + t;
      assert s[|s| - |t|..] == t;
      assert s[|s| - |t| - 1] == p[|p| - 1];
    }
  }

  /** There is only one such suffix, so the property above pins the result down. */
  lemma TopDomainUnique(t1: string, t2: string, s: string)
    requires IsTopDomain(t1, s) && IsTopDomain(t2, s)
    ensures t1 == t2
  {
    if |t1| < |t2| {
      LongerSuffixHasTwoDots(t1, t2, s);
      assert false;
    } else if |t2| < |t1| {
      LongerSuffixHasTwoDots(t2, t1, s);
      assert false;
    }
  }

  /** A longer suffix of `s` than a top domain also spans the dot before it. */
  lemma LongerSuffixHasTwoDots(t1: string, t2: string, s: string)
    requires IsTopDomain(t1, s)
    requires |t1| < |t2| <= |s| && s[|s| - |t2|..] == t2
    ensures Count(t2, Dot) >= 2
  {
    var k := |t2| - |t1| - 1;
    assert t2[k..] == [Dot] + t1 by {
      assert t2[k + 1..] == t1;
      assert t2[k] == s[|s| - |t1| - 1];
    }
    assert t2 == t2[..k] + t2[k..];
    CountAppend(t2[..k], t2[k..], Dot);
    CountAppend([Dot], t1, Dot);
  }

  /** Conversely, a name built from dot-free labels has the last two of them
      as its top domain. */
  lemma TopDomainOfJoin(labels: seq<string>)
    requires |labels| >= 2
    requires forall i :: 0 <= i < |labels| ==> Dot !in labels[i]
    ensures TopDomainOf([Join(labels)]) == Ok(labels[|labels| - 2] + [Dot] + labels[|labels| - 1])
  {
    var s := Join(labels);
    SplitJoin(labels);
    assert TopDomainOf([s]) == LastTwo(Split(s));
  }

  /** A subdomain and its parent share the top domain: `www.example.com`
      and `example.com` both give `example.com`. */
  lemma TopDomainDropsSubdomain(sub: string, name: string, tld: string)
    requires Dot !in sub && Dot !in name && Dot !in tld
    ensures TopDomainOf([sub + [Dot] + name + [Dot] + tld]) == Ok(name + [Dot] + tld)
    ensures TopDomainOf([name + [Dot] + tld]) == Ok(name + [Dot] + tld)
  {
    var two := [name, tld];
    var three := [sub, name, tld];
    assert two[1..] == [tld];
    assert three[1..] == two;
    assert Join(two) == name + [Dot] + tld;
    assert Join(three) == sub + [Dot] + Join(two);
    assert sub + [Dot] + name + [Dot] + tld == Join(three);
    TopDomainOfJoin(two);
    TopDomainOfJoin(three);
  }
}
