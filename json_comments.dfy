/**
 * The action-input sanitizer: `remove_json_comments`, a single `re.sub` by the empty string
 * of a pattern with two alternatives, under MULTILINE but not DOTALL: a block comment (slash,
 * star, the lazy `.*?`, star, slash) and a line comment (two slashes, the lazy `.*?`, `$`).
 *
 * The substitution is modelled as the left-to-right scanner that the regular-expression
 * engine performs: at each position the block alternative is tried first, then the line
 * alternative; after a match scanning resumes behind it, otherwise one character is kept.
 * Since `.` does not match a newline, a block comment must close on the line it opens on,
 * and a line comment ends just before the next newline, which is kept.
 */
module JsonComments {
  import opened Wrappers

  /** A block-comment closer `*` `/` starts at index j of t. */
  predicate CloserAt(t: string, j: int)
  {
    0 <= j && j + 1 < |t| && t[j] == '*' && t[j + 1] == '/'
  }

  /** Length of the first line of t: the index of its first newline, or |t| if there is none. */
  function LineEnd(t: string): (k: nat)
    ensures k <= |t|
    ensures forall i :: 0 <= i < k ==> t[i] != '\n'
    ensures k < |t| ==> t[k] == '\n'
  {
    if t == [] then 0
    else if t[0] == '\n' then 0
    else 1 + LineEnd(t[1..])
  }

  /**
   * Where the lazy body and closer that follow a block-comment opener end: the index of the
   * first closer in t that lies wholly on t's first line, or None when the line (or t) ends first.
   */
  function BlockClose(t: string): (r: Option<nat>)
    ensures r.Some? ==> CloserAt(t, r.value) && r.value + 1 < LineEnd(t)
    ensures r.Some? ==> forall j :: 0 <= j < r.value ==> !CloserAt(t, j)
    ensures r.None? ==> forall j :: 0 <= j && j + 1 < LineEnd(t) ==> !CloserAt(t, j)
  {
    if |t| < 2 then None
    else if t[0] == '\n' then None
    else if t[0] == '*' && t[1] == '/' then Some(0)
    else
      CloserShift(t);
      match BlockClose(t[1..])
      case None => None
      case Some(j) => Some(j + 1)
  }

  lemma CloserShift(t: string)
    requires t != []
    ensures forall j :: 1 <= j ==> CloserAt(t, j) == CloserAt(t[1..], j - 1)
  {
  }

  /**
   * Length of the match of the pattern that starts at the beginning of s, or 0 when none does:
   * the block alternative first (an opener whose closer is on the same line, through that closer),
   * then the line alternative (a `//` through the end of its line, the newline excluded).
   */
  function CommentLength(s: string): (n: nat)
    ensures n == 0 || 2 <= n <= |s|
    ensures n > 0 ==> s[0] == '/'
  {
    if |s| < 2 || s[0] != '/' then 0
    else if s[1] == '*' && BlockClose(s[2..]).Some? then BlockClose(s[2..]).value + 4
    else if s[1] == '/' then 2 + LineEnd(s[2..])
    else 0
  }

  /**
   * `remove_json_comments`: every match of the pattern, found left to right without overlap, is
   * replaced by nothing.
   */
  function RemoveJsonComments(s: string): (r: string)
    ensures |r| <= |s|
    decreases |s|
  {
    if s == [] then []
    else if CommentLength(s) > 0 then RemoveJsonComments(s[CommentLength(s)..])
    else [s[0]] + RemoveJsonComments(s[1..])
  }

  /** a is obtained from b by deleting zero or more characters (equivalently, disjoint spans). */
  predicate IsSubsequence(a: string, b: string)
    decreases |b|
  {
    if a == [] then true
    else if b == [] then false
    else (a[0] == b[0] && IsSubsequence(a[1..], b[1..])) || IsSubsequence(a, b[1..])
  }

  /** No match of the pattern starts anywhere in t. */
  predicate Clean(t: string)
  {
    forall i :: 0 <= i < |t| ==> CommentLength(t[i..]) == 0
  }

  // ---------------------------------------------------------------------------------------
  // Only deletes

  lemma {:induction false} SubsequenceDropFront(a: string, b: string, k: nat)
    requires k <= |b| && IsSubsequence(a, b[k..])
    ensures IsSubsequence(a, b)
    decreases k
  {
    if k > 0 {
      assert b[1..][k - 1..] == b[k..];
      SubsequenceDropFront(a, b[1..], k - 1);
    }
  }

  /** The sanitizer only deletes: every kept character stays, in its original order. */
  lemma {:induction false} RemovedIsSubsequence(s: string)
    ensures IsSubsequence(RemoveJsonComments(s), s)
    decreases |s|
  {
    if s != [] {
      var n := CommentLength(s);
      if n > 0 {
        RemovedIsSubsequence(s[n..]);
        SubsequenceDropFront(RemoveJsonComments(s), s, n);
      } else {
        RemovedIsSubsequence(s[1..]);
      }
    }
  }

  /** Text without a slash contains no comment and comes back unchanged. */
  lemma {:induction false} NoSlashUnchanged(s: string)
    requires forall i :: 0 <= i < |s| ==> s[i] != '/'
    ensures RemoveJsonComments(s) == s
    decreases |s|
  {
    if s != [] {
      NoSlashUnchanged(s[1..]);
    }
  }

  /** A slash-free prefix is kept as it is, and scanning goes on behind it. */
  lemma {:induction false} NoSlashPrefix(p: string, rest: string)
    requires forall i :: 0 <= i < |p| ==> p[i] != '/'
    ensures RemoveJsonComments(p + rest) == p + RemoveJsonComments(rest)
    decreases |p|
  {
    if p == [] {
      assert p + rest == rest;
    } else {
      var s := p + rest;
      assert s[0] == p[0] && s[1..] == p[1..] + rest;
      KeepFirst(s);
      forall i | 0 <= i < |p[1..]| ensures p[1..][i] != '/' {
        assert p[1..][i] == p[i + 1];
      }
      NoSlashPrefix(p[1..], rest);
      assert [p[0]] + (p[1..] + RemoveJsonComments(rest)) == p + RemoveJsonComments(rest);
    }
  }

  /** One step of the scanner where no match starts: the first character is kept. */
  lemma KeepFirst(s: string)
    requires s != [] && CommentLength(s) == 0
    ensures RemoveJsonComments(s) == [s[0]] + RemoveJsonComments(s[1..])
  {
  }

  /** One step of the scanner where a match starts: it is skipped. */
  lemma SkipFirst(s: string)
    requires CommentLength(s) > 0
    ensures RemoveJsonComments(s) == RemoveJsonComments(s[CommentLength(s)..])
  {
  }

  // ---------------------------------------------------------------------------------------
  // Lines are sanitized independently; newlines always survive

  lemma {:induction false} LineEndBeforeNewline(t: string, u: string)
    ensures LineEnd(t + "\n" + u) == LineEnd(t)
    decreases |t|
  {
    if t != [] && t[0] != '\n' {
      assert (t + "\n" + u)[1..] == t[1..] + "\n" + u;
      LineEndBeforeNewline(t[1..], u);
    }
  }

  lemma {:induction false} BlockCloseBeforeNewline(t: string, u: string)
    ensures BlockClose(t + "\n" + u) == BlockClose(t)
    decreases |t|
  {
    var s := t + "\n" + u;
    if |t| >= 2 && t[0] != '\n' && !(t[0] == '*' && t[1] == '/') {
      assert s[1..] == t[1..] + "\n" + u;
      BlockCloseBeforeNewline(t[1..], u);
    }
  }

  /** A comment that starts in a stays inside a: it is the same match when a newline follows a. */
  lemma CommentLengthBeforeNewline(a: string, b: string)
    requires a != []
    ensures CommentLength(a + "\n" + b) == CommentLength(a)
  {
    var s := a + "\n" + b;
    if |a| >= 2 {
      assert s[2..] == a[2..] + "\n" + b;
      BlockCloseBeforeNewline(a[2..], b);
      LineEndBeforeNewline(a[2..], b);
    }
  }

  /**
   * No comment crosses a newline: sanitizing `a + "\n" + b` sanitizes a and b on their own
   * and keeps the newline between them.
   */
  lemma {:induction false} NewlineSplits(a: string, b: string)
    ensures RemoveJsonComments(a + "\n" + b) == RemoveJsonComments(a) + "\n" + RemoveJsonComments(b)
    decreases |a|, 1
  {
    if a == [] {
      var s := a + "\n" + b;
      assert s == "\n" + b && s[1..] == b;
    } else {
      CommentLengthBeforeNewline(a, b);
      if CommentLength(a) > 0 {
        SkipSplits(a, b);
      } else {
        KeepSplits(a, b);
      }
    }
  }

  lemma {:induction false} SkipSplits(a: string, b: string)
    requires a != [] && CommentLength(a) > 0
    requires CommentLength(a + "\n" + b) == CommentLength(a)
    ensures RemoveJsonComments(a + "\n" + b) == RemoveJsonComments(a) + "\n" + RemoveJsonComments(b)
    decreases |a|, 0
  {
    var n := CommentLength(a);
    var s := a + "\n" + b;
    assert RemoveJsonComments(s) == RemoveJsonComments(a[n..] + "\n" + b) by {
      assert s[n..] == a[n..] + "\n" + b;
    }
    assert RemoveJsonComments(a) == RemoveJsonComments(a[n..]);
    assert RemoveJsonComments(a[n..] + "\n" + b) == RemoveJsonComments(a[n..]) + "\n" + RemoveJsonComments(b) by {
      NewlineSplits(a[n..], b);
    }
  }

  lemma {:induction false} KeepSplits(a: string, b: string)
    requires a != [] && CommentLength(a) == 0
    requires CommentLength(a + "\n" + b) == 0
    ensures RemoveJsonComments(a + "\n" + b) == RemoveJsonComments(a) + "\n" + RemoveJsonComments(b)
    decreases |a|, 0
  {
    var s := a + "\n" + b;
    var x, y := RemoveJsonComments(a[1..]), RemoveJsonComments(b);
    assert RemoveJsonComments(s) == [a[0]] + RemoveJsonComments(a[1..] + "\n" + b) by {
      assert s[1..] == a[1..] + "\n" + b;
      assert s[0] == a[0];
      KeepFirst(s);
    }
    assert RemoveJsonComments(a) == [a[0]] + x by {
      KeepFirst(a);
    }
    assert RemoveJsonComments(a[1..] + "\n" + b) == x + "\n" + y by {
      NewlineSplits(a[1..], b);
    }
    assert [a[0]] + (x + "\n" + y) == ([a[0]] + x) + "\n" + y;
  }

  // ---------------------------------------------------------------------------------------
  // What each alternative of the pattern removes

  /** `//` removes the rest of its line but keeps the newline and all later lines. */
  lemma LineCommentRemoved(c: string, rest: string)
    requires forall i :: 0 <= i < |c| ==> c[i] != '\n'
    ensures RemoveJsonComments("//" + c) == []
    ensures RemoveJsonComments("//" + c + "\n" + rest) == "\n" + RemoveJsonComments(rest)
  {
    var s := "//" + c;
    assert CommentLength(s) == |s| by {
      assert s[2..] == c;
    }
    assert s[|s|..] == [];
    var t := "//" + c + "\n" + rest;
    assert CommentLength(t) == |s| by {
      assert t[2..] == c + "\n" + rest;
      LineEndBeforeNewline(c, rest);
    }
    assert t[|s|..] == "\n" + rest;
    assert ("\n" + rest)[1..] == rest;
  }

  lemma {:induction false} BlockCloseAfterBody(c: string, rest: string)
    requires forall i :: 0 <= i < |c| ==> c[i] != '\n'
    requires forall j :: 0 <= j < |c| - 1 ==> !CloserAt(c, j)
    ensures BlockClose(c + "*/" + rest) == Some(|c|)
    decreases |c|
  {
    var t := c + "*/" + rest;
    if c != [] {
      assert t[1..] == c[1..] + "*/" + rest;
      forall j | 0 <= j < |c[1..]| - 1 ensures !CloserAt(c[1..], j) {
        assert !CloserAt(c, j + 1);
      }
      BlockCloseAfterBody(c[1..], rest);
      if |c| == 1 {
        assert t[0] == c[0] && t[1] == '*';
      } else {
        assert !CloserAt(c, 0);
      }
    }
  }

  /**
   * A block comment that closes on its own line is removed up to its first closer, and
   * scanning resumes right behind that closer.
   */
  lemma BlockCommentRemoved(c: string, rest: string)
    requires forall i :: 0 <= i < |c| ==> c[i] != '\n'
    requires forall j :: 0 <= j < |c| - 1 ==> !CloserAt(c, j)
    ensures RemoveJsonComments("/*" + c + "*/" + rest) == RemoveJsonComments(rest)
  {
    var s := "/*" + c + "*/" + rest;
    assert CommentLength(s) == |c| + 4 by {
      assert s[2..] == c + "*/" + rest;
      BlockCloseAfterBody(c, rest);
    }
    assert s[|c| + 4..] == rest;
  }

  /**
   * An opener whose line ends (or whose text ends) before any closer is not a comment: both
   * characters stay and scanning goes on right after them.
   */
  lemma BlockCommentLeft(t: string)
    requires forall j :: 0 <= j && j + 1 < LineEnd(t) ==> !CloserAt(t, j)
    ensures RemoveJsonComments("/*" + t) == "/*" + RemoveJsonComments(t)
  {
    var s := "/*" + t;
    assert BlockClose(t).None? by {
      NoCloserOnLine(t);
    }
    assert s[2..] == t && s[..2] == "/*";
    OpenerKept(s);
  }

  lemma NoCloserOnLine(t: string)
    requires forall j :: 0 <= j && j + 1 < LineEnd(t) ==> !CloserAt(t, j)
    ensures BlockClose(t).None?
  {
  }

  lemma OpenerKept(s: string)
    requires |s| >= 2 && s[0] == '/' && s[1] == '*' && BlockClose(s[2..]).None?
    ensures RemoveJsonComments(s) == s[..2] + RemoveJsonComments(s[2..])
  {
    var u := s[1..];
    assert CommentLength(s) == 0;
    assert RemoveJsonComments(s) == [s[0]] + RemoveJsonComments(u);
    assert CommentLength(u) == 0;
    assert u[1..] == s[2..];
    assert RemoveJsonComments(u) == [s[1]] + RemoveJsonComments(s[2..]);
    assert [s[0]] + ([s[1]] + RemoveJsonComments(s[2..])) == s[..2] + RemoveJsonComments(s[2..]);
  }

  // ---------------------------------------------------------------------------------------
  // The output holds no comment, so sanitizing twice changes nothing

  lemma BlockCloseShift(c: char, r: string)
    requires c != '\n' && !(c == '*' && r != [] && r[0] == '/')
    ensures BlockClose([c] + r).None? == BlockClose(r).None?
  {
    var t := [c] + r;
    assert t[1..] == r;
  }

  /** A first line without a closer has none after sanitizing either. */
  lemma {:induction false} NoCloserKept(u: string)
    requires BlockClose(u).None?
    ensures BlockClose(RemoveJsonComments(u)).None?
    decreases |u|
  {
    if u == [] || u[0] == '\n' {
    } else if CommentLength(u) > 0 {
      // a block comment cannot start here, since its closer would be on u's first line
      var v := u[CommentLength(u)..];
      if v != [] {
        assert v[0] == '\n';
      }
    } else {
      var r := RemoveJsonComments(u[1..]);
      if u[0] == '*' && |u| >= 2 {
        assert u[1] != '/';
        assert CommentLength(u[1..]) == 0;
        assert r == [u[1]] + RemoveJsonComments(u[2..]) by {
          assert u[1..][1..] == u[2..];
        }
      }
      BlockCloseShift(u[0], u[1..]);
      NoCloserKept(u[1..]);
      BlockCloseShift(u[0], r);
    }
  }

  /** No match of the pattern starts anywhere in the sanitized text. */
  lemma {:induction false} RemovedIsClean(s: string)
    ensures Clean(RemoveJsonComments(s))
    decreases |s|
  {
    if s != [] {
      var n := CommentLength(s);
      if n > 0 {
        SkipFirst(s);
        RemovedIsClean(s[n..]);
      } else {
        KeepFirst(s);
        RemovedIsClean(s[1..]);
        KeptCharStartsNothing(s);
        ConsClean(s[0], RemoveJsonComments(s[1..]));
      }
    }
  }

  /** The kept first character does not start a match together with what follows it. */
  lemma KeptCharStartsNothing(s: string)
    requires s != [] && CommentLength(s) == 0
    ensures CommentLength([s[0]] + RemoveJsonComments(s[1..])) == 0
  {
    var r := RemoveJsonComments(s[1..]);
    var t := [s[0]] + r;
    if s[0] == '/' && |s| >= 2 {
      var u := s[1..];
      assert u[0] == s[1] && u[1..] == s[2..];
      assert CommentLength(u) == 0;
      KeepFirst(u);
      assert t[1] == s[1];
      if s[1] == '*' {
        NoCloserKept(s[2..]);
        assert t[2..] == RemoveJsonComments(s[2..]);
      }
    }
  }

  lemma ConsClean(c: char, r: string)
    requires Clean(r) && CommentLength([c] + r) == 0
    ensures Clean([c] + r)
  {
    var t := [c] + r;
    assert t[0..] == t;
    forall i | 1 <= i < |t| ensures CommentLength(t[i..]) == 0 {
      assert t[i..] == r[i - 1..];
    }
  }

  /** Text holding no comment is returned unchanged. */
  lemma {:induction false} CleanUnchanged(t: string)
    requires Clean(t)
    ensures RemoveJsonComments(t) == t
    decreases |t|
  {
    if t != [] {
      assert CommentLength(t) == 0 by {
        assert t[0..] == t;
      }
      forall i | 0 <= i < |t[1..]| ensures CommentLength(t[1..][i..]) == 0 {
        assert t[1..][i..] == t[i + 1..];
      }
      CleanUnchanged(t[1..]);
    }
  }

  /** Text holding a comment always loses characters. */
  lemma {:induction false} DirtyShrinks(t: string, i: int)
    requires 0 <= i < |t| && CommentLength(t[i..]) > 0
    ensures |RemoveJsonComments(t)| < |t|
    decreases |t|
  {
    if CommentLength(t) == 0 {
      assert i != 0 by {
        assert t[0..] == t;
      }
      assert t[1..][i - 1..] == t[i..];
      DirtyShrinks(t[1..], i - 1);
    }
  }

  /** The sanitizer leaves a text unchanged exactly when no comment starts anywhere in it. */
  lemma UnchangedIffClean(t: string)
    ensures RemoveJsonComments(t) == t <==> Clean(t)
  {
    if Clean(t) {
      CleanUnchanged(t);
    } else {
      var i :| 0 <= i < |t| && CommentLength(t[i..]) > 0;
      DirtyShrinks(t, i);
    }
  }

  /** Sanitizing is idempotent. */
  lemma Idempotent(s: string)
    ensures RemoveJsonComments(RemoveJsonComments(s)) == RemoveJsonComments(s)
  {
    RemovedIsClean(s);
    CleanUnchanged(RemoveJsonComments(s));
  }

  // ---------------------------------------------------------------------------------------
  // Two action inputs a model may produce

  /** Between slash-free text, a one-line block comment is cut out and nothing else changes. */
  lemma BlockCommentBetween(head: string, c: string, tail: string)
    requires forall i :: 0 <= i < |head| ==> head[i] != '/'
    requires forall i :: 0 <= i < |tail| ==> tail[i] != '/'
    requires forall i :: 0 <= i < |c| ==> c[i] != '\n'
    requires forall j :: 0 <= j < |c| - 1 ==> !CloserAt(c, j)
    ensures RemoveJsonComments(head + "/*" + c + "*/" + tail) == head + tail
  {
    var t := "/*" + c + "*/" + tail;
    Regroup(head, "/*", c, "*/", tail);
    assert RemoveJsonComments(head + t) == head + RemoveJsonComments(t) by {
      NoSlashPrefix(head, t);
    }
    assert RemoveJsonComments(t) == tail by {
      BlockCommentRemoved(c, tail);
      NoSlashUnchanged(tail);
    }
  }

  /**
   * Regrouping a five-part concatenation; stated over variables, since proving it directly at
   * the literal openers and closers is far more expensive for the solver.
   */
  lemma Regroup(a: string, b: string, c: string, d: string, e: string)
    ensures a + b + c + d + e == a + (b + c + d + e)
  {
  }

  /** After slash-free text, `//` starts a comment even inside a quoted value such as a URL. */
  lemma LineCommentAfter(head: string, c: string)
    requires forall i :: 0 <= i < |head| ==> head[i] != '/'
    requires forall i :: 0 <= i < |c| ==> c[i] != '\n'
    ensures RemoveJsonComments(head + "//" + c) == head
  {
    assert head + "//" + c == head + ("//" + c);
    NoSlashPrefix(head, "//" + c);
    LineCommentRemoved(c, "");
  }

  /** An action input with a block comment between its two members loses exactly the comment span. */
  lemma CommentBetweenArguments()
    ensures RemoveJsonComments("{\"customer_id\": \"x\" " + "/*" + " note " + "*/" + ", \"feature\": \"name\"}")
            == "{\"customer_id\": \"x\" " + ", \"feature\": \"name\"}"
  {
    BlockCommentBetween("{\"customer_id\": \"x\" ", " note ", ", \"feature\": \"name\"}");
  }

  /** `{"url": "http://a.b"}` loses everything from the `//` on. */
  lemma UrlLosesItsTail()
    ensures RemoveJsonComments("{\"url\": \"http:" + "//" + "a.b\"}") == "{\"url\": \"http:"
  {
    LineCommentAfter("{\"url\": \"http:", "a.b\"}");
  }
}
