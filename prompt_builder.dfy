/**
 * Placeholder substitution over prompt templates. A builder holds the
 * template text and the list of replacements still outstanding; each
 * replacement may be performed once, and the prompt is released only when
 * nothing is outstanding.
 */
module Prompts {
  import opened Base

  /** The placeholders a prompt can require. */
  datatype Replacement = Query | User | Encoding | Keywords

  /** The text a placeholder takes inside a template (`getName`). */
  function Token(r: Replacement): (t: string)
    ensures |t| > 2 && t[0] == '[' && t[|t| - 1] == ']'
  {
    match r
    case Query => "[QUERY]"
    case User => "[USER]"
    case Encoding => "[ENCODING]"
    case Keywords => "[KEYWORDS]"
  }

  /** A prompt kind: its declared replacements and its template text. */
  datatype PromptKind = PromptKind(required: seq<Replacement>, template: string)

  /** `requiresKeywords`: the prompt needs a keyword-extraction stage first. */
  predicate RequiresKeywords(kind: PromptKind)
  {
    Keywords in kind.required
  }

  /** No element occurs twice. */
  ghost predicate NoDuplicates<T>(s: seq<T>)
  {
    forall i, j :: 0 <= i < j < |s| ==> s[i] != s[j]
  }

  /**
   * `List.remove(Object)`: drops the first occurrence of `x`, keeping the
   * order of the rest; the list is unchanged when `x` is absent.
   */
  function RemoveFirst<T(==)>(s: seq<T>, x: T): (r: seq<T>)
    ensures x !in s ==> r == s
    ensures x in s ==> |r| == |s| - 1 && multiset(r) == multiset(s) - multiset{x}
  {
    if x !in s then s
    else
      var k := IndexOf(s, x);
      assert s == s[..k] + [x] + s[k + 1..];
      s[..k] + s[k + 1..]
  }

  /** `pat` occurs in `s` at position `i`. */
  ghost predicate OccursAt(s: string, pat: string, i: int)
  {
    0 <= i && i + |pat| <= |s| && s[i..i + |pat|] == pat
  }

  /** `pat` occurs somewhere in `s`. */
  ghost predicate Occurs(s: string, pat: string)
  {
    exists i :: OccursAt(s, pat, i)
  }

  /**
   * `String.replace(target, replacement)` for a non-empty target: scans left
   * to right and replaces every non-overlapping occurrence.
   */
  function ReplaceAll(s: string, pat: string, rep: string): (t: string)
    requires |pat| > 0
    ensures |rep| <= |pat| ==> |t| <= |s|
    ensures |rep| >= |pat| ==> |t| >= |s|
    decreases |s|
  {
    if |s| < |pat| then s
    else if s[..|pat|] == pat then rep + ReplaceAll(s[|pat|..], pat, rep)
    else [s[0]] + ReplaceAll(s[1..], pat, rep)
  }

  /** A text without the token is left exactly as it is. */
  lemma {:induction false} ReplaceAllAbsent(s: string, pat: string, rep: string)
    requires |pat| > 0 && !Occurs(s, pat)
    ensures ReplaceAll(s, pat, rep) == s
    decreases |s|
  {
    if |s| >= |pat| {
      assert !OccursAt(s, pat, 0);
      assert s[0..|pat|] == s[..|pat|];
      forall i | 0 <= i && i + |pat| <= |s[1..]|
        ensures !OccursAt(s[1..], pat, i)
      {
        assert s[1..][i..i + |pat|] == s[i + 1..i + 1 + |pat|];
        assert !OccursAt(s, pat, i + 1);
      }
      ReplaceAllAbsent(s[1..], pat, rep);
      assert s == [s[0]] + s[1..];
    }
  }

  /** Once the token occurs, the replacement text occurs in the result. */
  lemma {:induction false} ReplaceAllInserts(s: string, pat: string, rep: string)
    requires |pat| > 0 && Occurs(s, pat)
    ensures Occurs(ReplaceAll(s, pat, rep), rep)
    decreases |s|
  {
    var r := ReplaceAll(s, pat, rep);
    var i :| OccursAt(s, pat, i);
    if s[..|pat|] == pat {
      assert r[0..|rep|] == rep;
      assert OccursAt(r, rep, 0);
    } else {
      assert i != 0;
      assert s[1..][i - 1..i - 1 + |pat|] == pat;
      assert OccursAt(s[1..], pat, i - 1);
      ReplaceAllInserts(s[1..], pat, rep);
      var t := ReplaceAll(s[1..], pat, rep);
      var j :| OccursAt(t, rep, j);
      assert r == [s[0]] + t;
      assert r[j + 1..j + 1 + |rep|] == rep;
      assert OccursAt(r, rep, j + 1);
    }
  }

  /** Replacing a token by itself changes nothing. */
  lemma {:induction false} ReplaceAllIdentity(s: string, pat: string)
    requires |pat| > 0
    ensures ReplaceAll(s, pat, pat) == s
    decreases |s|
  {
    if |s| >= |pat| {
      if s[..|pat|] == pat {
        ReplaceAllIdentity(s[|pat|..], pat);
        assert s == s[..|pat|] + s[|pat|..];
      } else {
        ReplaceAllIdentity(s[1..], pat);
        assert s == [s[0]] + s[1..];
      }
    }
  }

  /** The observable state of a builder: outstanding replacements and text. */
  datatype Draft = Draft(leftover: seq<Replacement>, text: string)

  /**
   * The effect of `replaceIfRequired(r, t)`: if `r` is outstanding, one
   * occurrence of it is consumed and every occurrence of its token in the
   * text becomes `t`; otherwise nothing happens.
   */
  function Substituted(d: Draft, r: Replacement, t: string): (e: Draft)
  {
    if r in d.leftover then Draft(RemoveFirst(d.leftover, r), ReplaceAll(d.text, Token(r), t))
    else d
  }

  /** Removing one position keeps the other elements, in order. */
  lemma RemoveFirstShifts<T>(s: seq<T>, x: T, i: int)
    requires x in s && 0 <= i < |s| - 1
    ensures RemoveFirst(s, x)[i] == s[if i < IndexOf(s, x) then i else i + 1]
  {
  }

  /** A placeholder required once can be substituted only once. */
  lemma SubstituteOnce(d: Draft, r: Replacement, t: string)
    requires NoDuplicates(d.leftover) && r in d.leftover
    ensures r !in Substituted(d, r, t).leftover
    ensures NoDuplicates(Substituted(d, r, t).leftover)
  {
    var l := d.leftover;
    var k := IndexOf(l, r);
    var l' := RemoveFirst(l, r);
    assert |l'| == |l| - 1;
    forall i, j | 0 <= i < j < |l'| ensures l'[i] != l'[j] {
      RemoveFirstShifts(l, r, i);
      RemoveFirstShifts(l, r, j);
    }
    forall i | 0 <= i < |l'| ensures l'[i] != r {
      RemoveFirstShifts(l, r, i);
    }
  }

  /** Substitution never adds an outstanding replacement. */
  lemma SubstitutedShrinks(d: Draft, r: Replacement, t: string)
    ensures multiset(Substituted(d, r, t).leftover) <= multiset(d.leftover)
    ensures Substituted(d, r, t).leftover == d.leftover <==> r !in d.leftover
  {
    if r in d.leftover {
      assert |Substituted(d, r, t).leftover| == |d.leftover| - 1;
    }
  }

  class PromptBuilder {
    ghost const required: seq<Replacement>
    var leftover: seq<Replacement>
    var prompt: string

    /** The outstanding replacements are drawn from the required ones. */
    ghost predicate Valid()
      reads this
    {
      multiset(leftover) <= multiset(required)
    }

    function Current(): Draft
      reads this
    {
      Draft(leftover, prompt)
    }

    /** A builder for `kind`; the template text is passed in with the kind. */
    constructor (kind: PromptKind)
      ensures Valid()
      ensures required == kind.required && leftover == kind.required && prompt == kind.template
    {
      required := kind.required;
      leftover := kind.required;
      prompt := kind.template;
    }

    /**
     * `replace(r, t)`: consumes an outstanding `r` and substitutes its token;
     * fails, changing nothing, when `r` is not outstanding.
     */
    method Replace(r: Replacement, text: string) returns (ok: bool)
      requires Valid()
      modifies this
      ensures Valid()
      ensures ok <==> r in old(leftover)
      ensures ok ==> leftover == RemoveFirst(old(leftover), r) && prompt == ReplaceAll(old(prompt), Token(r), text)
      ensures !ok ==> leftover == old(leftover) && prompt == old(prompt)
    {
      if r !in leftover {
        return false;
      }
      leftover := RemoveFirst(leftover, r);
      prompt := ReplaceAll(prompt, Token(r), text);
      return true;
    }

    /** `replaceIfRequired(r, t)`: `replace` when `r` is outstanding, else a no-op. */
    method ReplaceIfRequired(r: Replacement, text: string)
      requires Valid()
      modifies this
      ensures Valid()
      ensures Current() == Substituted(old(Current()), r, text)
    {
      if r in leftover {
        leftover := RemoveFirst(leftover, r);
        prompt := ReplaceAll(prompt, Token(r), text);
      }
    }

    /**
     * `toString`: the finished prompt when nothing is outstanding; otherwise
     * a failure reporting the outstanding replacements.
     */
    method Finalize() returns (res: Result<string, seq<Replacement>>)
      ensures res.Success? <==> leftover == []
      ensures res.Success? ==> res.value == prompt
      ensures res.Failure? ==> res.error == leftover
    {
      if leftover == [] {
        return Success(prompt);
      }
      return Failure(leftover);
    }

    /** `getLeftoverReplacements`: a copy of the outstanding list. */
    method GetLeftoverReplacements() returns (l: seq<Replacement>)
      ensures l == leftover
    {
      l := leftover;
    }
  }

  /**
   * With no placeholder outstanding twice, `replace` of the same placeholder
   * succeeds at most once: the second call fails and leaves the builder alone.
   */
  method ReplaceTwice(b: PromptBuilder, r: Replacement, t: string, u: string) returns (first: bool, second: bool)
    requires b.Valid() && NoDuplicates(b.leftover)
    modifies b
    ensures b.Valid()
    ensures first <==> r in old(b.leftover)
    ensures !second && r !in b.leftover
    ensures b.Current() == Substituted(old(b.Current()), r, t)
  {
    ghost var d := b.Current();
    first := b.Replace(r, t);
    if first {
      SubstituteOnce(d, r, t);
    }
    second := b.Replace(r, u);
  }
}
