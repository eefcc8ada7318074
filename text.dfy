/**
  The two JavaScript string operations the tooltips use, over `seq<char>`:
  `String.prototype.includes` and `String.prototype.replace` with a string pattern,
  which replaces only the FIRST occurrence.
 */
module Text {
  import opened Wrappers

  /** `p` occurs in `s` starting at index `i`. */
  predicate OccursAt(s: string, p: string, i: nat) {
    i + |p| <= |s| && s[i..i + |p|] == p
  }

  /** The first index at or after `from` where `p` occurs in `s`. */
  function IndexFrom(s: string, p: string, from: nat): (r: Option<nat>)
    ensures r.Some? ==> from <= r.value && OccursAt(s, p, r.value)
    ensures r.Some? ==> forall j :: from <= j < r.value ==> !OccursAt(s, p, j)
    ensures r.None? ==> forall j :: from <= j ==> !OccursAt(s, p, j)
    decreases |s| - from
  {
    if from + |p| > |s| then None
    else if s[from..from + |p|] == p then Some(from)
    else IndexFrom(s, p, from + 1)
  }

  /** `s.indexOf(p)`, with `None` for -1: the first index where `p` occurs in `s`. */
  function IndexOf(s: string, p: string): (r: Option<nat>)
    ensures r.Some? ==> OccursAt(s, p, r.value) && forall j :: 0 <= j < r.value ==> !OccursAt(s, p, j)
    ensures r.None? ==> forall j: nat :: !OccursAt(s, p, j)
  {
    IndexFrom(s, p, 0)
  }

  /** `s.includes(p)`: the pattern occurs somewhere. */
  predicate Includes(s: string, p: string)
    ensures Includes(s, p) <==> exists i: nat :: OccursAt(s, p, i)
  {
    IndexOf(s, p).Some?
  }

  /**
    `s.replace(p, rep)` for a string pattern `p`: only the first occurrence is replaced, and
    a string that does not include `p` is returned unchanged.
   */
  function ReplaceFirst(s: string, p: string, rep: string): (r: string)
    ensures !Includes(s, p) ==> r == s
    ensures Includes(s, p) ==>
              exists i: nat :: && OccursAt(s, p, i)
                               && (forall j :: 0 <= j < i ==> !OccursAt(s, p, j))
                               && r == s[..i] + rep + s[i + |p|..]
    ensures |r| == if Includes(s, p) then |s| - |p| + |rep| else |s|
  {
    match IndexOf(s, p)
    case None => s
    case Some(i) => s[..i] + rep + s[i + |p|..]
  }

  /** An occurrence of a pattern carries the occurrence of the pattern's tail one step on. */
  lemma TailOccurs(s: string, p: string, i: nat)
    requires |p| > 0
    ensures OccursAt(s, p, i) ==> OccursAt(s, p[1..], i + 1)
  {
    if i + |p| <= |s| {
      assert s[i + 1..i + |p|] == s[i..i + |p|][1..];
    }
  }

  /**
    In `a + b`, where `b` starts with a space, a pattern without spaces that `a` does not
    include cannot start inside `a` or at the seam: such an occurrence would either lie
    within `a` or put a character of the pattern on the space that starts `b`.
   */
  lemma NothingBeforeSpacedTail(a: string, b: string, p: string)
    requires !Includes(a, p)
    requires |b| > 0 && b[0] == ' '
    requires ' ' !in p
    ensures forall j: nat :: j <= |a| ==> !OccursAt(a + b, p, j)
  {
    forall j: nat | j <= |a|
      ensures !OccursAt(a + b, p, j)
    {
      if j + |p| <= |a| {
        assert (a + b)[j..j + |p|] == a[j..j + |p|];
        assert !OccursAt(a, p, j);
      } else if j + |p| <= |a| + |b| {
        assert (a + b)[j..j + |p|][|a| - j] == ' ';
      }
    }
  }

  /** Occurrences in the tail `b` of `a + b`, shifted by `|a|`. */
  lemma OccursInTail(a: string, b: string, p: string, j: nat)
    ensures OccursAt(a + b, p, |a| + j) <==> OccursAt(b, p, j)
  {
    if j + |p| <= |b| {
      assert (a + b)[|a| + j..|a| + j + |p|] == b[j..j + |p|];
    }
  }

  /** A pattern whose first character never appears in `s` does not occur in `s`. */
  lemma AbsentFirstChar(s: string, p: string)
    requires |p| > 0
    requires forall k :: 0 <= k < |s| ==> s[k] != p[0]
    ensures !Includes(s, p)
  {
    forall i: nat
      ensures !OccursAt(s, p, i)
    {
      if i + |p| <= |s| {
        assert s[i..i + |p|][0] == s[i];
      }
    }
  }

  /**
    The first `" " + word` in `name + " " + word` is the suffix itself when `name` does
    not include `word` and `word` is a non-empty word without spaces.
   */
  lemma SuffixIsFirstOccurrence(name: string, word: string)
    requires |word| > 0 && ' ' !in word
    requires !Includes(name, word)
    ensures IndexOf(name + (" " + word), " " + word) == Some(|name|)
  {
    var sp := " " + word;
    OccursInTail(name, sp, sp, 0);
    assert sp[0..|sp|] == sp;
    assert sp[1..] == word;
    NothingBeforeSpacedTail(name, sp, word);
    forall j: nat | j < |name|
      ensures !OccursAt(name + sp, sp, j)
    {
      TailOccurs(name + sp, sp, j);
    }
  }

  /** A label `name + " " + word` includes `word`. */
  lemma LabelIncludesWord(name: string, word: string)
    ensures Includes(name + " " + word, word)
  {
    var sp := " " + word;
    assert name + " " + word == name + sp;
    OccursInTail(name, sp, word, 1);
    assert sp[1..1 + |word|] == word;
  }

  /**
    The shape every tooltip rule relies on. Take a series label `name + " " + word` whose
    `name` does not include `word`, where `word` is a non-empty word without spaces:
    replacing the first `" " + word` by `" " + word + extra` rewrites exactly the suffix.
   */
  lemma RewriteLabelSuffix(name: string, word: string, extra: string)
    requires |word| > 0 && ' ' !in word
    requires !Includes(name, word)
    ensures ReplaceFirst(name + " " + word, " " + word, " " + word + extra) == name + " " + word + extra
  {
    var sp := " " + word;
    var lbl := name + sp;
    assert name + " " + word == lbl;
    assert " " + word + extra == sp + extra;
    assert name + " " + word + extra == name + (sp + extra);
    SuffixIsFirstOccurrence(name, word);
    assert lbl[..|name|] == name;
    assert lbl[|name| + |sp|..] == [];
    assert ReplaceFirst(lbl, sp, sp + extra) == lbl[..|name|] + (sp + extra) + lbl[|name| + |sp|..];
  }

  /**
    A label `name + " " + word` does not include `other` when `name` does not, `other`
    has no space, and the first character of `other` does not appear in `word`.
   */
  lemma LabelExcludes(name: string, word: string, other: string)
    requires |other| > 0 && ' ' !in other
    requires other[0] !in word
    requires !Includes(name, other)
    ensures !Includes(name + " " + word, other)
  {
    var sp := " " + word;
    assert name + " " + word == name + sp;
    NothingBeforeSpacedTail(name, sp, other);
    AbsentFirstChar(sp, other);
    forall i: nat
      ensures !OccursAt(name + sp, other, i)
    {
      if i > |name| {
        OccursInTail(name, sp, other, i - |name|);
      }
    }
  }

  /** Whatever a string includes, any extension of it includes too. */
  lemma IncludesExtended(a: string, b: string, p: string)
    requires Includes(a, p)
    ensures Includes(a + b, p)
  {
    var i := IndexOf(a, p).value;
    assert (a + b)[i..i + |p|] == a[i..i + |p|];
    assert OccursAt(a + b, p, i);
  }
}
