/** The schema linter's two scanners: the body of a parenthesised list, and its
    split at top-level commas. */
module SqlClauses {
  function Delta(c: char): int {
    if c == '(' then 1 else if c == ')' then -1 else 0
  }

  /** Opening minus closing parentheses. */
  function Depth(s: string): int {
    if s == "" then 0 else Depth(s[..|s| - 1]) + Delta(s[|s| - 1])
  }

  lemma {:induction false} DepthConcat(a: string, b: string)
    ensures Depth(a + b) == Depth(a) + Depth(b)
    decreases |b|
  {
    if b == "" {
      assert a + b == a;
    } else {
      assert (a + b)[..|a + b| - 1] == a + b[..|b| - 1];
      DepthConcat(a, b[..|b| - 1]);
    }
  }

  /** Never closes more than it opened, and ends even. */
  ghost predicate Balanced(s: string) {
    Depth(s) == 0 && forall i :: 0 <= i <= |s| ==> Depth(s[..i]) >= 0
  }

  // ---- The body of a list

  /** The parenthesis at `close` matches the one at `open`. */
  ghost predicate Match(s: string, open: int, close: int) {
    && 0 <= open < close < |s| && s[open] == '(' && s[close] == ')'
    && Balanced(s[open + 1..close])
  }

  lemma DepthStep(s: string, from: nat, i: nat)
    requires from <= i < |s|
    ensures Depth(s[from..i + 1]) == Depth(s[from..i]) + Delta(s[i])
  {
    assert s[from..i + 1][..i - from] == s[from..i];
  }

  lemma BodyDepth(s: string, open: nat, j: nat)
    requires open < j <= |s| && s[open] == '('
    ensures Depth(s[open..j]) == 1 + Depth(s[open + 1..j])
  {
    assert s[open..j] == "(" + s[open + 1..j];
    DepthConcat("(", s[open + 1..j]);
    assert Depth("(") == 1;
  }

  /** At the match the depth counted from the opening one returns to zero, and
      nowhere before it. */
  lemma MatchDepths(s: string, open: nat, close: nat, i: nat)
    requires Match(s, open, close) && open <= i < close
    ensures Depth(s[open..i + 1]) >= 1
    ensures Depth(s[open..close + 1]) == 0
  {
    assert s[open + 1..i + 1] == s[open + 1..close][..i - open];
    BodyDepth(s, open, i + 1);
    BodyDepth(s, open, close);
    DepthStep(s, open, close);
  }

  lemma MatchUnique(s: string, open: nat, close: nat, other: nat)
    requires Match(s, open, close) && Match(s, open, other)
    ensures close == other
  {
    if close < other { MatchDepths(s, open, other, close); MatchDepths(s, open, close, open); }
    if other < close { MatchDepths(s, open, close, other); MatchDepths(s, open, other, open); }
  }

  /** Counted from `open`, the depth stays positive up to `i`. */
  ghost predicate Positive(s: string, open: nat, i: nat) {
    open <= i <= |s| && forall j :: open < j <= i ==> Depth(s[open..j]) >= 1
  }

  lemma PositiveStep(s: string, open: nat, i: nat)
    requires Positive(s, open, i) && i < |s| && Depth(s[open..i + 1]) >= 1
    ensures Positive(s, open, i + 1)
  {}

  /** The scan found the depth positive up to `close` and zero there. */
  lemma ScanMatches(s: string, open: nat, close: nat)
    requires open < close < |s| && s[open] == '(' && s[close] == ')'
    requires Positive(s, open, close) && Depth(s[open..close + 1]) == 0
    ensures Match(s, open, close)
  {
    var body := s[open + 1..close];
    forall i | 0 <= i <= |body| ensures Depth(body[..i]) >= 0 {
      BodyDepth(s, open, open + 1 + i);
      assert body[..i] == s[open + 1..open + 1 + i];
    }
    DepthStep(s, open, close);
    BodyDepth(s, open, close);
  }

  lemma NoMatch(s: string, open: nat, close: int)
    requires Positive(s, open, |s|)
    ensures !Match(s, open, close)
  {
    if Match(s, open, close) {
      MatchDepths(s, open, close, open);
    }
  }

  /** Finds the body exactly when the parenthesis at `openIdx` has a match, and
      returns what lies between the two. */
  method BalancedParenBody(s: string, openIdx: int) returns (body: string, ok: bool)
    ensures ok <==> exists close :: Match(s, openIdx, close)
    ensures ok ==> Balanced(body) && Match(s, openIdx, openIdx + 1 + |body|)
                   && body == s[openIdx + 1..openIdx + 1 + |body|]
    ensures ok ==> forall close :: Match(s, openIdx, close) ==> close == openIdx + 1 + |body|
  {
    if openIdx < 0 || openIdx >= |s| || s[openIdx] != '(' {
      return "", false;
    }
    var depth := 0;
    var i := openIdx;
    while i < |s|
      invariant openIdx <= i <= |s| && Positive(s, openIdx, i)
      invariant depth == Depth(s[openIdx..i]) && (i > openIdx ==> depth >= 1)
    {
      DepthStep(s, openIdx, i);
      if s[i] == '(' {
        depth := depth + 1;
      } else if s[i] == ')' {
        depth := depth - 1;
        if depth == 0 {
          ScanMatches(s, openIdx, i);
          forall close | Match(s, openIdx, close) ensures close == i { MatchUnique(s, openIdx, close, i); }
          return s[openIdx + 1..i], true;
        }
      }
      PositiveStep(s, openIdx, i);
      i := i + 1;
    }
    forall close ensures !Match(s, openIdx, close) {
      NoMatch(s, openIdx, close);
    }
    return "", false;
  }

  // ---- The clauses of a body

  function Join(clauses: seq<string>): string {
    if clauses == [] then ""
    else if |clauses| == 1 then clauses[0]
    else Join(clauses[..|clauses| - 1]) + "," + clauses[|clauses| - 1]
  }

  /** No comma outside every parenthesis. */
  ghost predicate NoTopComma(s: string) {
    forall i :: 0 <= i < |s| && s[i] == ',' ==> Depth(s[..i]) != 0
  }

  /** The clauses cut from body[..start], with no comma to cut at up to `i`. */
  ghost predicate SoFar(body: string, clauses: seq<string>, start: nat, i: nat) {
    && start <= i <= |body| && Depth(body[..start]) == 0
    && (if clauses == [] then start == 0 else Join(clauses) + "," == body[..start])
    && (forall k :: 0 <= k < |clauses| ==> NoTopComma(clauses[k]) && Depth(clauses[k]) == 0)
    && (Balanced(body) ==> forall k :: 0 <= k < |clauses| ==> Balanced(clauses[k]))
    && (forall j :: start <= j < i && body[j] == ',' ==> Depth(body[start..j]) != 0)
  }

  lemma PassOver(body: string, clauses: seq<string>, start: nat, i: nat)
    requires SoFar(body, clauses, start, i) && i < |body|
    requires body[i] != ',' || Depth(body[..i]) != 0
    ensures SoFar(body, clauses, start, i + 1)
  {
    Piece(body, start, i);
  }

  lemma OneMoreClause(clauses: seq<string>, clause: string)
    requires forall k :: 0 <= k < |clauses| ==> NoTopComma(clauses[k]) && Depth(clauses[k]) == 0
    requires NoTopComma(clause) && Depth(clause) == 0
    ensures var all := clauses + [clause];
            forall k :: 0 <= k < |all| ==> NoTopComma(all[k]) && Depth(all[k]) == 0
  {}

  lemma CutHere(body: string, clauses: seq<string>, start: nat, i: nat)
    requires SoFar(body, clauses, start, i) && i < |body|
    requires body[i] == ',' && Depth(body[..i]) == 0
    ensures SoFar(body, clauses + [body[start..i]], i + 1, i + 1)
  {
    Piece(body, start, i);
    CutClean(body, start, i);
    CutJoins(body, start, i, clauses);
    PrefixStep(body, i);
    OneMoreClause(clauses, body[start..i]);
  }

  lemma PrefixStep(body: string, i: nat)
    requires i < |body|
    ensures Depth(body[..i + 1]) == Depth(body[..i]) + Delta(body[i])
  {
    assert body[..i + 1][..i] == body[..i];
  }

  lemma LastCut(body: string, clauses: seq<string>, start: nat)
    requires SoFar(body, clauses, start, |body|)
    ensures var all := clauses + [body[start..]];
            && Join(all) == body && (forall k :: 0 <= k < |all| ==> NoTopComma(all[k]))
            && (forall k :: 0 <= k < |all| - 1 ==> Depth(all[k]) == 0)
            && (Balanced(body) ==> forall k :: 0 <= k < |all| ==> Balanced(all[k]))
  {
    assert body[..|body|] == body && body[start..|body|] == body[start..];
    Piece(body, start, |body|);
    CutClean(body, start, |body|);
    CutJoins(body, start, |body|, clauses);
  }

  /** The loop that cuts the body; the columns are read off its clauses. */
  method SplitClauses(body: string) returns (clauses: seq<string>)
    ensures clauses != [] && Join(clauses) == body
    ensures forall k :: 0 <= k < |clauses| ==> NoTopComma(clauses[k])
    ensures forall k :: 0 <= k < |clauses| - 1 ==> Depth(clauses[k]) == 0
    ensures Balanced(body) ==> forall k :: 0 <= k < |clauses| ==> Balanced(clauses[k])
  {
    clauses := [];
    var depth, start := 0, 0;
    for i := 0 to |body|
      invariant depth == Depth(body[..i]) && SoFar(body, clauses, start, i)
    {
      PrefixStep(body, i);
      if body[i] == '(' {
        PassOver(body, clauses, start, i);
        depth := depth + 1;
      } else if body[i] == ')' {
        PassOver(body, clauses, start, i);
        depth := depth - 1;
      } else if body[i] == ',' && depth == 0 {
        CutHere(body, clauses, start, i);
        clauses := clauses + [body[start..i]];
        start := i + 1;
      } else {
        PassOver(body, clauses, start, i);
      }
    }
    LastCut(body, clauses, start);
    clauses := clauses + [body[start..]];
  }

  /** Depths inside a piece are depths of the whole, counted from its start. */
  lemma Piece(body: string, start: nat, end: nat)
    requires start <= end <= |body| && Depth(body[..start]) == 0
    ensures Depth(body[start..end]) == Depth(body[..end])
    ensures forall j :: 0 <= j <= end - start ==> Depth(body[start..end][..j]) == Depth(body[..start + j])
    ensures Balanced(body) && Depth(body[..end]) == 0 ==> Balanced(body[start..end])
  {
    forall j | 0 <= j <= end - start ensures Depth(body[start..end][..j]) == Depth(body[..start + j]) {
      assert body[..start + j] == body[..start] + body[start..end][..j];
      DepthConcat(body[..start], body[start..end][..j]);
    }
    assert body[start..end][..end - start] == body[start..end];
  }

  lemma SliceTake(s: string, from: nat, to: nat, j: nat)
    requires from + j <= to <= |s|
    ensures s[from..to][..j] == s[from..from + j]
  {}

  lemma CutClean(body: string, start: nat, end: nat)
    requires start <= end <= |body|
    requires forall j :: start <= j < end && body[j] == ',' ==> Depth(body[start..j]) != 0
    ensures NoTopComma(body[start..end])
  {
    var clause := body[start..end];
    forall j | 0 <= j < |clause| && clause[j] == ',' ensures Depth(clause[..j]) != 0 {
      SliceTake(body, start, end, j);
    }
  }

  lemma CutJoins(body: string, start: nat, end: nat, clauses: seq<string>)
    requires start <= end <= |body|
    requires if clauses == [] then start == 0 else Join(clauses) + "," == body[..start]
    ensures Join(clauses + [body[start..end]]) == body[..end]
    ensures end < |body| && body[end] == ',' ==> Join(clauses + [body[start..end]]) + "," == body[..end + 1]
  {
    var all := clauses + [body[start..end]];
    assert all[..|all| - 1] == clauses;
    if clauses != [] {
      assert body[..end] == body[..start] + body[start..end];
    }
    if end < |body| {
      assert body[..end + 1] == body[..end] + [body[end]];
    }
  }

  /** A list of clauses that could have been cut from a balanced body. */
  ghost predicate Clauses(clauses: seq<string>) {
    clauses != [] && forall k :: 0 <= k < |clauses| ==> NoTopComma(clauses[k]) && Balanced(clauses[k])
  }

  lemma {:induction false} JoinDepth(clauses: seq<string>)
    requires Clauses(clauses)
    ensures Depth(Join(clauses)) == 0
  {
    if |clauses| > 1 {
      var front, last := clauses[..|clauses| - 1], clauses[|clauses| - 1];
      JoinDepth(front);
      DepthConcat(Join(front), ",");
      DepthConcat(Join(front) + ",", last);
      assert Depth(",") == 0;
    }
  }

  lemma FrontOf(a: seq<string>)
    requires |a| > 1
    ensures var n := |Join(a)| - |a[|a| - 1]|;
            n >= 1 && Join(a[..|a| - 1]) == Join(a)[..n - 1]
  {
    assert Join(a) == Join(a[..|a| - 1]) + "," + a[|a| - 1];
  }

  lemma FrontClauses(a: seq<string>)
    requires Clauses(a) && |a| > 1
    ensures Clauses(a[..|a| - 1])
  {
    var front := a[..|a| - 1];
    forall k | 0 <= k < |front| ensures NoTopComma(front[k]) && Balanced(front[k]) {
      assert front[k] == a[k];
    }
  }

  lemma FrontJoins(a: seq<string>, b: seq<string>)
    requires Join(a) == Join(b) && |a| > 1 && |b| > 1 && a[|a| - 1] == b[|b| - 1]
    ensures Join(a[..|a| - 1]) == Join(b[..|b| - 1])
  {
    FrontOf(a);
    FrontOf(b);
  }

  lemma SameFront(a: seq<string>, b: seq<string>)
    requires Clauses(a) && Clauses(b) && Join(a) == Join(b) && |a| > 1 && |b| > 1
    requires a[|a| - 1] == b[|b| - 1]
    ensures Clauses(a[..|a| - 1]) && Clauses(b[..|b| - 1]) && Join(a[..|a| - 1]) == Join(b[..|b| - 1])
  {
    FrontClauses(a);
    FrontClauses(b);
    FrontJoins(a, b);
  }

  lemma FrontAndLast(a: seq<string>)
    requires a != []
    ensures a == a[..|a| - 1] + [a[|a| - 1]]
    ensures |a| == 1 ==> a == [a[|a| - 1]]
  {}

  /** The last clause starts right after the last top-level comma, so the cut is
      the only one: no other clauses rejoin to the same body. */
  lemma {:induction false} ClausesUnique(a: seq<string>, b: seq<string>)
    requires Clauses(a) && Clauses(b) && Join(a) == Join(b)
    ensures a == b
    decreases |a|
  {
    LastClause(a, b);
    FrontAndLast(a);
    FrontAndLast(b);
    if |a| > 1 {
      SameFront(a, b);
      ClausesUnique(a[..|a| - 1], b[..|b| - 1]);
    }
  }

  lemma LastClause(a: seq<string>, b: seq<string>)
    requires Clauses(a) && Clauses(b) && Join(a) == Join(b)
    ensures a[|a| - 1] == b[|b| - 1] && (|a| == 1 <==> |b| == 1)
  {
    NotLonger(a, b);
    NotLonger(b, a);
    var x, y := a[|a| - 1], b[|b| - 1];
    var s := Join(a);
    assert s[|s| - |x|..] == x && s[|s| - |y|..] == y;
    LoneIsWhole(a);
    LoneIsWhole(b);
  }

  lemma LoneIsWhole(a: seq<string>)
    requires a != []
    ensures |a| == 1 <==> |Join(a)| == |a[|a| - 1]|
  {}

  /** A piece that reaches back over a top-level comma has one. */
  lemma CommaInside(prefix: string, x: string, front: string, y: string)
    requires prefix + x == (front + ",") + y && |prefix| <= |front|
    requires Depth(prefix) == 0 && Depth(front) == 0
    ensures !NoTopComma(x)
  {
    var s := prefix + x;
    var at := |front| - |prefix|;
    assert s[|front|] == ',' && x[at] == s[|front|];
    assert s[..|front|] == front && s[..|front|] == prefix + x[..at];
    DepthConcat(prefix, x[..at]);
  }

  /** The last clause of `a` cannot reach past the comma before `b`'s. */
  lemma NotLonger(a: seq<string>, b: seq<string>)
    requires Clauses(a) && Clauses(b) && Join(a) == Join(b)
    ensures |a[|a| - 1]| <= |b[|b| - 1]|
  {
    var s, x, y := Join(a), a[|a| - 1], b[|b| - 1];
    PrefixDepth(a);
    LoneIsWhole(b);
    if |b| > 1 && |x| > |y| {
      var front := Join(b[..|b| - 1]);
      JoinDepth(b[..|b| - 1]);
      var prefix := s[..|s| - |x|];
      assert prefix + x == s;
      CommaInside(prefix, x, front, y);
    }
  }

  /** Everything before the last clause is even. */
  lemma PrefixDepth(a: seq<string>)
    requires Clauses(a)
    ensures |a[|a| - 1]| <= |Join(a)| && Join(a)[|Join(a)| - |a[|a| - 1]|..] == a[|a| - 1]
    ensures Depth(Join(a)[..|Join(a)| - |a[|a| - 1]|]) == 0
  {
    var x := a[|a| - 1];
    if |a| > 1 {
      var front := a[..|a| - 1];
      assert Clauses(front);
      JoinDepth(front);
      DepthConcat(Join(front), ",");
      assert Depth(",") == 0;
      assert Join(a)[..|Join(a)| - |x|] == Join(front) + ",";
    }
  }
}
