/**
 * The streaming accumulator of `make_request`: per-index text, role and
 * finish reason gathered from a chunk stream into three length-n arrays, then
 * turned into n choices with the defaults "assistant" and "stop".
 */
module Streaming {
  import opened Values
  import opened Chat

  /** `[""] * n` and `range(n)` are empty for a negative `n`. */
  function Width(n: int): nat
  {
    if n < 0 then 0 else n
  }

  /** The fragments of a stream in arrival order: chunk after chunk, and
      inside a chunk in the order of its choices. */
  function Fragments(chunks: seq<Chunk>): seq<Fragment>
  {
    if chunks == [] then [] else Fragments(chunks[..|chunks| - 1]) + chunks[|chunks| - 1].choices
  }

  /** The text a fragment appends to its slot: its delta's content when that
      is a non-empty string, nothing otherwise. */
  function TextOf(f: Fragment): string
  {
    if f.delta.Some? && Truthy(f.delta.value.content) then f.delta.value.content.value else ""
  }

  /** Whether a fragment touches its slot at all: a non-empty content, role or
      finish reason. A fragment that carries none of them is skipped without
      its index ever being looked up. */
  predicate Writes(f: Fragment)
  {
    || (f.delta.Some? && (Truthy(f.delta.value.content) || Truthy(f.delta.value.role)))
    || Truthy(f.finishReason)
  }

  /** Every fragment of the stream that writes names a slot that exists. */
  predicate IndicesBelow(chunks: seq<Chunk>, n: int)
  {
    forall c, f :: c in chunks && f in c.choices && Writes(f) ==> 0 <= f.index < n
  }

  /** The two per-slot labels that a later fragment overwrites. */
  datatype Label = Role | Reason

  /** The label value a fragment writes into its slot, if any: the delta's
      role, or the finish reason, when non-empty. */
  function LabelOf(f: Fragment, kind: Label): Option<string>
  {
    match kind
    case Role => if f.delta.Some? && Truthy(f.delta.value.role) then f.delta.value.role else None
    case Reason => if Truthy(f.finishReason) then f.finishReason else None
  }

  /** The text gathered for slot `i` from the fragments `fs`. */
  function TextFor(fs: seq<Fragment>, i: int): string
  {
    if fs == [] then ""
    else TextFor(fs[..|fs| - 1], i) + (if fs[|fs| - 1].index == i then TextOf(fs[|fs| - 1]) else "")
  }

  /** The value of label `kind` held by slot `i` after the fragments `fs`: the
      value of the last fragment for `i` that writes one. Whatever it holds is
      a non-empty string. */
  function LastFor(fs: seq<Fragment>, i: int, kind: Label): (r: Option<string>)
    ensures r.Some? ==> r.value != ""
  {
    if fs == [] then None
    else if fs[|fs| - 1].index == i && LabelOf(fs[|fs| - 1], kind).Some? then LabelOf(fs[|fs| - 1], kind)
    else LastFor(fs[..|fs| - 1], i, kind)
  }

  /** The n choices built from the slots once the stream has ended. */
  function Finalize(fs: seq<Fragment>, n: nat): seq<Choice>
  {
    seq(n, i requires 0 <= i < n =>
      Choice(i, OrElse(LastFor(fs, i, Reason), "stop"),
             Message(OrElse(LastFor(fs, i, Role), "assistant"), Some(TextFor(fs, i)))))
  }

  // ---------------------------------------------------------------------
  // Properties of the accumulated state

  /** Splitting a stream anywhere: a slot's text is the text of the first
      part followed by the text of the second. */
  lemma {:induction false} TextForSplit(a: seq<Fragment>, b: seq<Fragment>, i: int)
    ensures TextFor(a + b, i) == TextFor(a, i) + TextFor(b, i)
  {
    if b == [] {
      assert a + b == a;
    } else {
      var b' := b[..|b| - 1];
      assert (a + b)[..|a + b| - 1] == a + b';
      TextForSplit(a, b', i);
    }
  }

  /** A fragment for another index, wherever it is interleaved, does not
      change the text of slot `i`. */
  lemma TextForIgnoresOthers(a: seq<Fragment>, f: Fragment, b: seq<Fragment>, i: int)
    requires f.index != i
    ensures TextFor(a + [f] + b, i) == TextFor(a + b, i)
  {
    TextForSplit(a + [f], b, i);
    TextForSplit(a, [f], i);
    assert [f][..0] == [];
    TextForSplit(a, b, i);
  }

  /** Splitting a stream anywhere: a label is the second part's last value,
      or the first part's when the second part never writes it. */
  lemma {:induction false} LastForSplit(a: seq<Fragment>, b: seq<Fragment>, i: int, kind: Label)
    ensures LastFor(a + b, i, kind)
         == if LastFor(b, i, kind).Some? then LastFor(b, i, kind) else LastFor(a, i, kind)
  {
    if b == [] {
      assert a + b == a;
    } else {
      var b' := b[..|b| - 1];
      assert (a + b)[..|a + b| - 1] == a + b';
      LastForSplit(a, b', i, kind);
    }
  }

  /** A slot's label is unset exactly when no fragment for that slot writes
      it; the defaults "assistant" and "stop" apply in that case only. */
  lemma {:induction false} LastForUnset(fs: seq<Fragment>, i: int, kind: Label)
    ensures LastFor(fs, i, kind).None?
        <==> forall k :: 0 <= k < |fs| && fs[k].index == i ==> LabelOf(fs[k], kind).None?
  {
    if fs != [] {
      var fs' := fs[..|fs| - 1];
      LastForUnset(fs', i, kind);
      assert forall k :: 0 <= k < |fs'| ==> fs'[k] == fs[k];
    }
  }

  /** Last writer wins: a fragment for slot `i` that writes label `kind` decides
      it unless a later fragment for `i` writes it again. */
  lemma LastForWins(a: seq<Fragment>, f: Fragment, b: seq<Fragment>, i: int, kind: Label)
    requires f.index == i && LabelOf(f, kind).Some?
    requires forall k :: 0 <= k < |b| && b[k].index == i ==> LabelOf(b[k], kind).None?
    ensures LastFor(a + [f] + b, i, kind) == LabelOf(f, kind)
  {
    LastForUnset(b, i, kind);
    LastForSplit(a + [f], b, i, kind);
    assert (a + [f])[..|a + [f]| - 1] == a;
  }

  /** Chunk boundaries do not matter: the fragments of two streams placed one
      after the other are the fragments of each. */
  lemma {:induction false} FragmentsSplit(a: seq<Chunk>, b: seq<Chunk>)
    ensures Fragments(a + b) == Fragments(a) + Fragments(b)
  {
    if b == [] {
      assert a + b == a;
    } else {
      var b' := b[..|b| - 1];
      assert (a + b)[..|a + b| - 1] == a + b';
      FragmentsSplit(a, b');
    }
  }

  /** A chunk with no choices, wherever it arrives, leaves every slot as it
      was. */
  lemma EmptyChunkChangesNothing(a: seq<Chunk>, b: seq<Chunk>)
    ensures Fragments(a + [Chunk([])] + b) == Fragments(a + b)
  {
    FragmentsSplit(a + [Chunk([])], b);
    FragmentsSplit(a, [Chunk([])]);
    FragmentsSplit(a, b);
    assert [Chunk([])][..0] == [];
  }

  /** What one more fragment does to slot `i`: its text grows by the
      fragment's text and its labels take the fragment's values, when the
      fragment is for `i`; otherwise the slot is unchanged. */
  lemma SlotAfter(fs: seq<Fragment>, f: Fragment, i: int)
    ensures TextFor(fs + [f], i) == TextFor(fs, i) + (if f.index == i then TextOf(f) else "")
    ensures LastFor(fs + [f], i, Role)
         == if f.index == i && LabelOf(f, Role).Some? then LabelOf(f, Role) else LastFor(fs, i, Role)
    ensures LastFor(fs + [f], i, Reason)
         == if f.index == i && LabelOf(f, Reason).Some? then LabelOf(f, Reason) else LastFor(fs, i, Reason)
  {
    assert (fs + [f])[..|fs|] == fs;
  }

  /** A fragment that writes nothing, whatever index it names, leaves every
      slot's text, role and finish reason as they were. */
  lemma SilentFragmentChangesNothing(fs: seq<Fragment>, f: Fragment, n: nat)
    requires !Writes(f)
    ensures Finalize(fs + [f], n) == Finalize(fs, n)
  {
    forall i | 0 <= i < n
      ensures Finalize(fs + [f], n)[i] == Finalize(fs, n)[i]
    {
      SlotAfter(fs, f, i);
      assert TextOf(f) == "" && LabelOf(f, Role).None? && LabelOf(f, Reason).None?;
      assert TextFor(fs + [f], i) == TextFor(fs, i) + "" == TextFor(fs, i);
    }
  }

  // ---------------------------------------------------------------------
  // The accumulator

  /** The three lists of `make_request`'s streamed path, one slot per sample
      index, and the fragments fed to them so far. */
  class StreamAccumulator {
    const n: nat
    const texts: array<string>
    const reasons: array<Option<string>>
    const roles: array<Option<string>>
    ghost var seen: seq<Fragment>

    ghost predicate Valid()
      reads this, texts, reasons, roles
    {
      && texts.Length == n && reasons.Length == n && roles.Length == n
      && reasons != roles
      && forall i :: 0 <= i < n ==>
           && texts[i] == TextFor(seen, i)
           && roles[i] == LastFor(seen, i, Role)
           && reasons[i] == LastFor(seen, i, Reason)
    }

    /** n empty slots: empty text, no role, no finish reason. */
    constructor (n: nat)
      ensures Valid() && this.n == n && seen == []
      ensures fresh(texts) && fresh(reasons) && fresh(roles)
    {
      this.n := n;
      texts := new string[n](_ => "");
      reasons := new Option<string>[n](_ => None);
      roles := new Option<string>[n](_ => None);
      seen := [];
    }

    /** Feeds one fragment into the slot it names; a fragment that writes
        nothing is never looked up, so its index may be anything. */
    method Add(f: Fragment)
      requires Valid() && (Writes(f) ==> 0 <= f.index < n)
      modifies this, texts, reasons, roles
      ensures Valid() && seen == old(seen) + [f]
    {
      var idx := f.index;
      if f.delta.Some? {
        if Truthy(f.delta.value.content) {
          texts[idx] := texts[idx] + f.delta.value.content.value;
        }
        if Truthy(f.delta.value.role) {
          roles[idx] := f.delta.value.role;
        }
      }
      if Truthy(f.finishReason) {
        reasons[idx] := f.finishReason;
      }
      forall i | 0 <= i < n
        ensures texts[i] == TextFor(seen + [f], i)
        ensures roles[i] == LastFor(seen + [f], i, Role)
        ensures reasons[i] == LastFor(seen + [f], i, Reason)
      {
        SlotAfter(seen, f, i);
      }
      seen := seen + [f];
    }

    /** Turns the slots into choices, slot `i` into the choice with index `i`. */
    method Finish() returns (choices: seq<Choice>)
      requires Valid()
      ensures choices == Finalize(seen, n)
    {
      choices := [];
      for i := 0 to n
        invariant |choices| == i
        invariant forall k :: 0 <= k < i ==> choices[k] == Finalize(seen, n)[k]
      {
        var role := if Truthy(roles[i]) then roles[i].value else "assistant";
        var reason := if Truthy(reasons[i]) then reasons[i].value else "stop";
        choices := choices + [Choice(i, reason, Message(role, Some(texts[i])))];
      }
    }
  }

  /** Reduces a whole stream to `n` choices: choice `i` has index `i`, the
      in-order concatenation of the texts sent for `i`, and the last role and
      finish reason sent for `i` ("assistant" and "stop" when none was).
      Fragments that write nothing may name any index. */
  method Accumulate(chunks: seq<Chunk>, n: int) returns (choices: seq<Choice>)
    requires IndicesBelow(chunks, n)
    ensures choices == Finalize(Fragments(chunks), Width(n))
    ensures |choices| == Width(n)
  {
    var acc := new StreamAccumulator(Width(n));
    for k := 0 to |chunks|
      invariant acc.Valid() && acc.n == Width(n)
      invariant fresh(acc.texts) && fresh(acc.reasons) && fresh(acc.roles)
      invariant acc.seen == Fragments(chunks[..k])
    {
      var chunk := chunks[k];
      assert chunk in chunks;
      if chunk.choices != [] {
        for j := 0 to |chunk.choices|
          invariant acc.Valid() && acc.n == Width(n)
          invariant acc.seen == Fragments(chunks[..k]) + chunk.choices[..j]
        {
          assert chunk.choices[j] in chunk.choices;
          acc.Add(chunk.choices[j]);
        }
      }
      assert chunks[..k + 1][..k] == chunks[..k];
      assert chunk.choices[..|chunk.choices|] == chunk.choices;
    }
    assert chunks[..|chunks|] == chunks;
    choices := acc.Finish();
  }
}
