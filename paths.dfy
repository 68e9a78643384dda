/** Dotted metric paths.

    A Graphite metric path is a list of tokens joined with `.`.  This module
    holds the separator, the JavaScript truthiness test the client applies to
    the tokens it is given, and the two string operations a path is built and
    read with: `Array.prototype.join('.')` and `String.prototype.split('.')`.
    The lemmas show that joining and splitting are inverse to each other as
    long as no token contains the separator, which is what the client's
    naming rule is there to guarantee.
 */
module MetricPaths {

  /** An argument that the caller may leave out: `None` stands for
      `undefined` or `null`, `Some(s)` for a string. */
  datatype Option<+T> = None | Some(value: T)

  const Separator: char := '.'

  /** JavaScript `!x` for an argument that is absent or a string: exactly
      the arguments that `join` renders as the empty string. */
  predicate Falsy(x: Option<string>)
    ensures Falsy(x) <==> JoinElement(x) == ""
  {
    x.None? || x.value == ""
  }

  predicate DotFree(s: string) {
    Separator !in s
  }

  /** The client's naming rule for one path token: it rejects `x` when
      `!x || x.indexOf('.') >= 0`. */
  predicate IsToken(x: Option<string>) {
    !Falsy(x) && DotFree(x.value)
  }

  /** How `Array.prototype.join` renders one element: `undefined` and `null`
      become the empty string. */
  function JoinElement(x: Option<string>): string {
    if x.None? then "" else x.value
  }

  /** `parts.join('.')` */
  function Join(parts: seq<string>): string {
    if |parts| == 0 then ""
    else if |parts| == 1 then parts[0]
    else parts[0] + [Separator] + Join(parts[1..])
  }

  /** Number of separators in `s`. */
  function Dots(s: string): nat {
    multiset(s)[Separator]
  }

  lemma DotFreeHasNoDots(s: string)
    ensures DotFree(s) <==> Dots(s) == 0
  {
  }

  /** `s.split('.')`: the pieces between separators, always at least one. */
  function Split(s: string): (r: seq<string>)
    ensures |r| >= 1
    decreases |s|
  {
    if |s| == 0 then [""]
    else
      var rest := Split(s[1..]);
      if s[0] == Separator then [""] + rest
      else [[s[0]] + rest[0]] + rest[1..]
  }

  /** One step of `Split`'s definition. */
  lemma SplitUnfold(s: string)
    requires |s| > 0
    ensures Split(s) == if s[0] == Separator then [""] + Split(s[1..])
                        else [[s[0]] + Split(s[1..])[0]] + Split(s[1..])[1..]
  {
  }

  /** A string splits into one more piece than it has separators, and no
      piece contains a separator. */
  lemma {:induction false} SplitPieces(s: string)
    ensures |Split(s)| == Dots(s) + 1
    ensures forall i :: 0 <= i < |Split(s)| ==> DotFree(Split(s)[i])
    decreases |s|
  {
    if |s| > 0 {
      SplitPieces(s[1..]);
      SplitUnfold(s);
      assert s == [s[0]] + s[1..];
      var rest := Split(s[1..]);
      if s[0] != Separator {
        var r := Split(s);
        assert r[0] == [s[0]] + rest[0];
        assert forall i :: 1 <= i < |r| ==> r[i] == rest[i];
      }
    }
  }

  /** The naming rule accepts exactly the non-empty strings that split into
      themselves alone: a token is read back as one path segment. */
  lemma TokenIsOneSegment(x: Option<string>)
    ensures IsToken(x) <==> x.Some? && x.value != "" && Split(x.value) == [x.value]
  {
    if x.Some? {
      SplitPieces(x.value);
      if DotFree(x.value) {
        SplitToken(x.value);
      }
    }
  }

  /** The join of non-empty, dot-free parts has one separator fewer than it
      has parts. */
  lemma {:induction false} JoinDots(parts: seq<string>)
    requires |parts| > 0
    requires forall i :: 0 <= i < |parts| ==> DotFree(parts[i])
    ensures Dots(Join(parts)) == |parts| - 1
    decreases |parts|
  {
    if |parts| > 1 {
      JoinDots(parts[1..]);
      var j := Join(parts[1..]);
      assert Join(parts) == parts[0] + [Separator] + j;
      assert multiset(Join(parts)) == multiset(parts[0]) + multiset([Separator]) + multiset(j);
    }
  }

  /** A dot-free string splits into itself alone. */
  lemma {:induction false} SplitToken(a: string)
    requires DotFree(a)
    ensures Split(a) == [a]
    decreases |a|
  {
    if |a| > 0 {
      SplitToken(a[1..]);
      assert [a[0]] + a[1..] == a;
    }
  }

  /** Splitting `a.t` with a dot-free head `a` yields `a` followed by the
      pieces of `t`. */
  lemma SplitCons(a: string, t: string)
    requires DotFree(a)
    ensures Split(a + [Separator] + t) == [a] + Split(t)
  {
    SplitConcat(a, t);
    SplitToken(a);
  }

  /** Joining several dot-free tokens and splitting the result gives the
      tokens back. */
  lemma {:induction false} SplitJoin(parts: seq<string>)
    requires |parts| > 0
    requires forall i :: 0 <= i < |parts| ==> DotFree(parts[i])
    ensures Split(Join(parts)) == parts
    decreases |parts|
  {
    if |parts| == 1 {
      SplitToken(parts[0]);
    } else {
      SplitCons(parts[0], Join(parts[1..]));
      SplitJoin(parts[1..]);
      assert [parts[0]] + parts[1..] == parts;
    }
  }

  /** The other direction: joining the pieces of any string restores it. */
  lemma {:induction false} JoinSplit(s: string)
    ensures Join(Split(s)) == s
    decreases |s|
  {
    if |s| > 0 {
      var rest := Split(s[1..]);
      JoinSplit(s[1..]);
      assert Join(rest) == s[1..];
      assert s == [s[0]] + s[1..];
      if s[0] == Separator {
        JoinAppend([""], rest);
        assert [""] + rest == Split(s);
      } else {
        JoinHead([s[0]], rest);
      }
    }
  }

  /** Prepending characters to the first piece prepends them to the join. */
  lemma JoinHead(c: string, rest: seq<string>)
    requires |rest| > 0
    ensures Join([c + rest[0]] + rest[1..]) == c + Join(rest)
  {
    var r := [c + rest[0]] + rest[1..];
    if |rest| > 1 {
      assert r[0] == c + rest[0];
      assert r[1..] == rest[1..];
      var h, j := rest[0], Join(rest[1..]);
      assert Join(r) == c + h + [Separator] + j;
      assert Join(rest) == h + [Separator] + j;
      ConcatAssoc(c, h, [Separator], j);
    }
  }

  lemma ConcatAssoc(a: string, b: string, c: string, d: string)
    ensures a + b + c + d == a + (b + c + d)
  {
  }

  /** Two non-empty lists of dot-free tokens with the same join are the same
      list.  (Non-empty matters: `[]` and `[""]` both join to `""`.) */
  lemma JoinInjective(p: seq<string>, q: seq<string>)
    requires |p| > 0 && |q| > 0
    requires forall i :: 0 <= i < |p| ==> DotFree(p[i])
    requires forall i :: 0 <= i < |q| ==> DotFree(q[i])
    requires Join(p) == Join(q)
    ensures p == q
  {
    SplitJoin(p);
    SplitJoin(q);
  }

  /** Splitting `a.t` for any `a` splits `a` and `t` separately: a
      separator placed between two strings always ends a piece. */
  lemma {:induction false} SplitConcat(a: string, t: string)
    ensures Split(a + [Separator] + t) == Split(a) + Split(t)
    decreases |a|
  {
    if |a| == 0 {
      var s := a + [Separator] + t;
      assert s[0] == Separator && s[1..] == t;
    } else {
      SplitConcat(a[1..], t);
      SplitConcatStep(a, t);
    }
  }

  /** The inductive step of `SplitConcat`: from the tail of `a` to `a`.

      This step and the lemmas below it each unfold `Split` once or move one
      pair of brackets in a sequence concatenation.  Done in one body, the
      unfolding of `Split` on three strings together with the re-association
      of `seq<string>` concatenations leaves the solver too many choices, and
      the proof succeeds or runs out of resource depending on the random
      seed; one fact per lemma keeps it stable. */
  lemma SplitConcatStep(a: string, t: string)
    requires |a| > 0
    requires Split(a[1..] + [Separator] + t) == Split(a[1..]) + Split(t)
    ensures Split(a + [Separator] + t) == Split(a) + Split(t)
  {
    var s := a + [Separator] + t;
    assert s[0] == a[0] && s[1..] == a[1..] + [Separator] + t;
    if a[0] == Separator {
      SplitStepSeparator(a, s, Split(a[1..]), Split(t));
    } else {
      SplitStepChar(a, s, Split(a[1..]), Split(t));
    }
  }

  lemma SplitStepSeparator(a: string, s: string, q: seq<string>, u: seq<string>)
    requires |a| > 0 && |s| > 0 && a[0] == Separator && s[0] == Separator
    requires Split(a[1..]) == q && Split(s[1..]) == q + u
    ensures Split(s) == Split(a) + u
  {
    SplitUnfoldSeparator(s, q + u);
    SplitUnfoldSeparator(a, q);
    ConsAssoc("", q, u);
  }

  lemma SplitStepChar(a: string, s: string, q: seq<string>, u: seq<string>)
    requires |a| > 0 && |s| > 0 && a[0] != Separator && s[0] == a[0]
    requires |q| > 0 && Split(a[1..]) == q && Split(s[1..]) == q + u
    ensures Split(s) == Split(a) + u
  {
    var h := [a[0]] + q[0];
    SplitUnfoldCharAppend(s, q, u);
    SplitUnfoldChar(a, q);
    ConsAssoc(h, q[1..], u);
  }

  /** `Split` on a string that starts with any other character, when the
      pieces of its tail are a concatenation. */
  lemma SplitUnfoldCharAppend(s: string, q: seq<string>, u: seq<string>)
    requires |s| > 0 && s[0] != Separator && Split(s[1..]) == q + u && |q| > 0
    ensures Split(s) == [[s[0]] + q[0]] + (q[1..] + u)
  {
    SplitUnfoldChar(s, q + u);
    assert (q + u)[0] == q[0] && (q + u)[1..] == q[1..] + u;
  }

  /** `Split` on a string that starts with a separator. */
  lemma SplitUnfoldSeparator(s: string, rest: seq<string>)
    requires |s| > 0 && s[0] == Separator && Split(s[1..]) == rest
    ensures Split(s) == [""] + rest
  {
    SplitUnfold(s);
  }

  /** `Split` on a string that starts with any other character. */
  lemma SplitUnfoldChar(s: string, rest: seq<string>)
    requires |s| > 0 && s[0] != Separator && Split(s[1..]) == rest && |rest| > 0
    ensures Split(s) == [[s[0]] + rest[0]] + rest[1..]
  {
    SplitUnfold(s);
  }

  lemma ConsAssoc(h: string, x: seq<string>, y: seq<string>)
    ensures [h] + (x + y) == ([h] + x) + y
  {
  }

  /** Joining two non-empty lists joins their joins. */
  lemma {:induction false} JoinAppend(p: seq<string>, q: seq<string>)
    requires |p| > 0 && |q| > 0
    ensures Join(p + q) == Join(p) + [Separator] + Join(q)
    decreases |p|
  {
    var sep := [Separator];
    assert (p + q)[0] == p[0];
    if |p| == 1 {
      assert (p + q)[1..] == q;
    } else {
      assert (p + q)[1..] == p[1..] + q;
      JoinAppend(p[1..], q);
      var h, jp, jq := p[0], Join(p[1..]), Join(q);
      assert Join(p + q) == h + sep + (jp + sep + jq);
      assert Join(p) == h + sep + jp;
      ConcatAssoc(h + sep, jp, sep, jq);
    }
  }
}
