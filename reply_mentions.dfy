/**
 * Mention extraction from the model's reply: every match of the global
 * regular expression `/@(\d+)/g`, mapped to the recipient form `digits@c.us`.
 */
module ReplyMentions {
  import opened JsText

  /** The recipient identifier for a run of digits. */
  function Recipient(digits: string): string {
    digits + "@c.us"
  }

  /** Length of the maximal run of digits at the start of `s`. */
  function DigitRunLength(s: string): (n: nat)
    ensures n <= |s|
    ensures forall i :: 0 <= i < n ==> IsDigit(s[i])
    ensures n < |s| ==> !IsDigit(s[n])
  {
    if |s| > 0 && IsDigit(s[0]) then 1 + DigitRunLength(s[1..]) else 0
  }

  /**
   * What successive `exec` calls of `/@(\d+)/g` find, in order: the leftmost
   * `@` followed by a digit starts a match, the greedy `\d+` takes the whole
   * run of digits, and the search resumes right after it.
   */
  function Mentions(s: string): seq<string>
    decreases |s|
  {
    if |s| < 2 then []
    else if s[0] == '@' && IsDigit(s[1]) then
      var n := DigitRunLength(s[1..]);
      [Recipient(s[1..1 + n])] + Mentions(s[1 + n..])
    else Mentions(s[1..])
  }

  /** Number of `@` characters of `s`. */
  function CountAt(s: string): nat {
    if s == [] then 0 else (if s[0] == '@' then 1 else 0) + CountAt(s[1..])
  }

  /** Every mention is a non-empty run of digits followed by "@c.us". */
  lemma {:induction false} MentionsWellFormed(s: string)
    ensures forall m :: m in Mentions(s) ==>
              exists d :: m == Recipient(d) && d != [] && AllDigits(d)
    decreases |s|
  {
    if |s| < 2 {
    } else if s[0] == '@' && IsDigit(s[1]) {
      var n := DigitRunLength(s[1..]);
      MentionsWellFormed(s[1 + n..]);
      var d := s[1..1 + n];
      assert AllDigits(d);
    } else {
      MentionsWellFormed(s[1..]);
    }
  }

  /** There is at most one mention per `@`. */
  lemma {:induction false} MentionsAtMostOnePerAt(s: string)
    ensures |Mentions(s)| <= CountAt(s)
    decreases |s|
  {
    if |s| < 2 {
    } else if s[0] == '@' && IsDigit(s[1]) {
      var n := DigitRunLength(s[1..]);
      MentionsAtMostOnePerAt(s[1 + n..]);
      CountAtSuffix(s[1..], n);
    } else {
      MentionsAtMostOnePerAt(s[1..]);
    }
  }

  /** A suffix has no more `@` than the whole. */
  lemma {:induction false} CountAtSuffix(s: string, k: nat)
    requires k <= |s|
    ensures CountAt(s[k..]) <= CountAt(s)
  {
    if k > 0 {
      CountAtSuffix(s[1..], k - 1);
      assert s[1..][k - 1..] == s[k..];
    }
  }

  /**
   * Scanning is compositional: the mentions of `a + b` are those of `a`
   * followed by those of `b`, provided `b` does not start with a digit (which
   * could extend a run of `a`, or complete an `@` at its end).
   */
  lemma {:induction false} MentionsAppend(a: string, b: string)
    requires b == [] || !IsDigit(b[0])
    ensures Mentions(a + b) == Mentions(a) + Mentions(b)
    decreases |a|, 1
  {
    if a == [] {
      assert a + b == b;
    } else if |a| == 1 {
      var s := a + b;
      if |s| >= 2 {
        assert s[1..] == b;
        assert s[1] == b[0];
      } else {
        assert b == [];
      }
    } else if a[0] == '@' && IsDigit(a[1]) {
      MentionsAppendMatch(a, b);
    } else {
      MentionsAppendSkip(a, b);
    }
  }

  /** `MentionsAppend` when `a` starts with a match. */
  lemma {:induction false} MentionsAppendMatch(a: string, b: string)
    requires b == [] || !IsDigit(b[0])
    requires |a| >= 2 && a[0] == '@' && IsDigit(a[1])
    ensures Mentions(a + b) == Mentions(a) + Mentions(b)
    decreases |a|, 0
  {
    var s := a + b;
    var n := DigitRunLength(a[1..]);
    assert s[0] == a[0] && s[1] == a[1];
    assert s[1..] == a[1..] + b;
    DigitRunAppend(a[1..], b);
    assert s[1..1 + n] == a[1..1 + n];
    assert s[1 + n..] == a[1 + n..] + b;
    MentionsAppend(a[1 + n..], b);
  }

  /** `MentionsAppend` when the first character of `a` starts no match. */
  lemma {:induction false} MentionsAppendSkip(a: string, b: string)
    requires b == [] || !IsDigit(b[0])
    requires |a| >= 2 && !(a[0] == '@' && IsDigit(a[1]))
    ensures Mentions(a + b) == Mentions(a) + Mentions(b)
    decreases |a|, 0
  {
    var s := a + b;
    assert s[0] == a[0] && s[1] == a[1];
    assert s[1..] == a[1..] + b;
    MentionsAppend(a[1..], b);
  }

  /** A run of digits inside `a` is not extended by a `b` that starts with no digit. */
  lemma {:induction false} DigitRunAppend(a: string, b: string)
    requires b == [] || !IsDigit(b[0])
    ensures DigitRunLength(a + b) == DigitRunLength(a)
  {
    if a == [] {
      assert a + b == b;
    } else if IsDigit(a[0]) {
      assert (a + b)[1..] == a[1..] + b;
      DigitRunAppend(a[1..], b);
    }
  }

  /** The maximal run of digits is the one that ends at the first non-digit. */
  lemma {:induction false} DigitRunExact(s: string, k: nat)
    requires k <= |s|
    requires forall i :: 0 <= i < k ==> IsDigit(s[i])
    requires k < |s| ==> !IsDigit(s[k])
    ensures DigitRunLength(s) == k
  {
    if k > 0 {
      DigitRunExact(s[1..], k - 1);
    }
  }

  /** A text without `@` has no mentions. */
  lemma {:induction false} NoAtNoMentions(s: string)
    requires CountAt(s) == 0
    ensures Mentions(s) == []
  {
    MentionsAtMostOnePerAt(s);
  }

  /**
   * `while ((match = patronMencion.exec(text)) !== null) mentions.push(...)`:
   * the regular expression's `lastIndex` is `i`, the inner loop is the greedy `\d+`.
   */
  method ExtractMentions(text: string) returns (mentions: seq<string>)
    ensures mentions == Mentions(text)
  {
    mentions := [];
    var i := 0;
    while i < |text|
      invariant 0 <= i <= |text|
      invariant mentions + Mentions(text[i..]) == Mentions(text)
    {
      ghost var rest := text[i..];
      if text[i] == '@' && i + 1 < |text| && IsDigit(text[i + 1]) {
        var j := i + 1;
        while j < |text| && IsDigit(text[j])
          invariant i + 1 <= j <= |text|
          invariant forall k :: i + 1 <= k < j ==> IsDigit(text[k])
        {
          j := j + 1;
        }
        MatchStep(text, i, j);
        mentions := mentions + [Recipient(text[i + 1..j])];
        i := j;
      } else {
        assert rest[1..] == text[i + 1..];
        i := i + 1;
      }
    }
  }

  /** One `exec` that matches at `i`: its digits end at `j`, and the search resumes there. */
  lemma MatchStep(text: string, i: nat, j: nat)
    requires i + 1 < j <= |text| && text[i] == '@'
    requires forall k :: i + 1 <= k < j ==> IsDigit(text[k])
    requires j < |text| ==> !IsDigit(text[j])
    ensures Mentions(text[i..]) == [Recipient(text[i + 1..j])] + Mentions(text[j..])
  {
    var rest := text[i..];
    assert rest[1..] == text[i + 1..];
    DigitRunExact(rest[1..], j - (i + 1));
    assert rest[1..1 + (j - i - 1)] == text[i + 1..j];
    assert rest[1 + (j - i - 1)..] == text[j..];
  }

  /**
   * Repeated mentions are kept, in order: two texts without mentions, each
   * followed by the same `@digits`, give that recipient twice (as in
   * "ping @5491122334 and @5491122334").
   */
  lemma MentionedTwice(p: string, d: string, q: string)
    requires Mentions(p) == [] && Mentions(q) == []
    requires d != [] && AllDigits(d)
    requires q != [] && !IsDigit(q[0])
    ensures Mentions(p + ("@" + d) + (q + ("@" + d))) == [Recipient(d), Recipient(d)]
  {
    var m := "@" + d;
    OneMention(d);
    MentionsAppend(p + m, q + m);
    assert (q + m)[0] == q[0];
    MentionsAppend(p, m);
    MentionsAppend(q, m);
  }

  /** An `@` followed by a run of digits and nothing else is exactly one mention. */
  lemma OneMention(d: string)
    requires d != [] && AllDigits(d)
    ensures Mentions("@" + d) == [Recipient(d)]
  {
    var s := "@" + d;
    assert s[0] == '@' && s[1] == d[0];
    assert s[1..] == d;
    DigitRunExact(d, |d|);
    assert s[1..1 + |d|] == d;
    assert s[1 + |d|..] == [];
    assert Mentions(s) == [Recipient(s[1..1 + |d|])] + Mentions(s[1 + |d|..]);
  }
}
