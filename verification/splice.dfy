/**
 * Replacing matched spans of a text. The source rewrites a formula by walking
 * the matches from the last to the first and splicing each replacement into
 * the current text (`t[:start] + new + t[end:]`), so that earlier offsets stay
 * valid. `Rebuild` is the left-to-right reading of the same rewrite: copy the
 * gaps, emit each replacement. The lemmas here let a right-to-left loop be
 * proved equal to `Rebuild`.
 */
module Splice {
  /** Replace s[start..end] by `text`. */
  datatype Edit = Edit(start: nat, end: nat, text: string)

  /** Every edit lies inside s[from..], the edits are in order and do not overlap. */
  predicate Ordered(s: string, es: seq<Edit>, from: nat) {
    from <= |s|
    && (forall i :: 0 <= i < |es| ==> es[i].start <= es[i].end <= |s|)
    && (forall i, j :: 0 <= i < j < |es| ==> es[i].end <= es[j].start)
    && (|es| > 0 ==> from <= es[0].start)
  }

  /** The rewritten text, from offset `from` on (an edit out of place ends the rewrite). */
  function Rebuild(s: string, es: seq<Edit>, from: nat): string
    requires from <= |s|
    decreases |es|
  {
    if es == [] then s[from..]
    else if from <= es[0].start <= es[0].end <= |s| then
      s[from..es[0].start] + es[0].text + Rebuild(s, es[1..], es[0].end)
    else s[from..]
  }

  /** A rebuild starting at its first edit emits that edit's text, then goes on after it. */
  lemma RebuildHead(s: string, es: seq<Edit>, from: nat)
    requires |es| > 0 && from == es[0].start <= es[0].end <= |s|
    ensures Rebuild(s, es, from) == es[0].text + Rebuild(s, es[1..], es[0].end)
  {
    assert s[from..from] == [];
  }

  /** Starting the rebuild earlier just copies the extra gap. */
  lemma {:induction false} RebuildShift(s: string, es: seq<Edit>, a: nat, b: nat)
    requires Ordered(s, es, b) && a <= b
    ensures Ordered(s, es, a)
    ensures Rebuild(s, es, a) == s[a..b] + Rebuild(s, es, b)
  {
    if es == [] {
      assert s[a..] == s[a..b] + s[b..];
    } else {
      assert s[a..es[0].start] == s[a..b] + s[b..es[0].start];
    }
  }

  /**
   * One step of the right-to-left loop: if `t` agrees with `s` up to `pos`
   * and then holds the rebuild of the edits after the first, splicing the
   * first edit into `t` gives `s` up to its start followed by the rebuild of
   * all the edits.
   */
  lemma SpliceStep(s: string, t: string, es: seq<Edit>, pos: nat)
    requires |es| > 0 && Ordered(s, es[1..], pos) && es[0].start <= es[0].end <= pos
    requires t == s[..pos] + Rebuild(s, es[1..], pos)
    ensures Ordered(s, es, es[0].start)
    ensures es[0].end <= |t|
    ensures t[..es[0].start] + es[0].text + t[es[0].end..] == s[..es[0].start] + Rebuild(s, es, es[0].start)
  {
    var e, rest := es[0], es[1..];
    forall i, j | 0 <= i < j < |es| ensures es[i].end <= es[j].start {
      if i > 0 {
        assert es[i] == rest[i - 1] && es[j] == rest[j - 1];
      } else {
        assert es[j] == rest[j - 1];
      }
    }
    var tail := s[e.end..pos] + Rebuild(s, rest, pos);
    assert Rebuild(s, es, e.start) == e.text + tail by {
      RebuildShift(s, rest, e.end, pos);
      RebuildHead(s, es, e.start);
    }
    assert t[..e.start] == s[..e.start];
    assert t[e.end..] == tail;
    Associative(s[..e.start], e.text, tail);
  }

  lemma Associative(a: string, b: string, c: string)
    ensures a + b + c == a + (b + c)
  {
  }

  /** An edit whose text is the span it replaces leaves the text as it was. */
  lemma SpliceSame(t: string, st: nat, en: nat)
    requires st <= en <= |t|
    ensures t[..st] + t[st..en] + t[en..] == t
  {
  }

  /** Edits that rewrite each span to itself rebuild the original text. */
  lemma {:induction false} RebuildIdentity(s: string, es: seq<Edit>, from: nat)
    requires Ordered(s, es, from)
    requires forall i :: 0 <= i < |es| ==> es[i].text == s[es[i].start..es[i].end]
    ensures Rebuild(s, es, from) == s[from..]
    decreases |es|
  {
    if es != [] {
      RebuildIdentity(s, es[1..], es[0].end);
      assert s[from..] == s[from..es[0].start] + s[es[0].start..es[0].end] + s[es[0].end..];
    }
  }
}
