/**
 A window keymap as the configuration sees it: a table from input chords to
 bindings, filled in by a sequence of item assignments. Assigning to a chord
 that is already bound replaces its binding, so the table a sequence of
 writes produces is decided, chord by chord, by the LAST write to that chord.
 */
module Keymaps {
  import opened Wrappers

  /** A chord in the host's own grammar ("C-m", "A-S-Down", "W-Semicolon"), kept opaque. */
  type Chord = string

  /** What a window-activation command is told to look for; the search itself is the host's. */
  datatype ActivateTarget = ByExeName(exe: string) | ByEmacsCheck

  /** The right-hand side of a keymap assignment. */
  datatype Binding =
    | Single(output: Chord)                             // one output chord
    | Macro(outputs: seq<Chord>)                        // output chords replayed in order
    | MultiStroke(name: string, strokes: map<Chord, Chord>)  // a prefix chord's second-stroke table
    | Raw(code: string)                                 // a virtual-key code, stored verbatim
    | Activate(target: ActivateTarget)                  // focus-or-launch command tag

  type Keymap = map<Chord, Binding>

  /** One assignment `keymap[key] = binding`. */
  datatype Write = Write(key: Chord, binding: Binding)

  /** The chords a sequence of writes assigns to. */
  function WrittenKeys(ws: seq<Write>): set<Chord>
  {
    set i | 0 <= i < |ws| :: ws[i].key
  }

  /** No chord is assigned twice. */
  predicate DistinctKeys(ws: seq<Write>)
  {
    forall i, j :: 0 <= i < j < |ws| ==> ws[i].key != ws[j].key
  }

  /** With no chord assigned twice, the writes assign exactly as many chords as there are writes. */
  lemma {:induction false} DistinctKeysCount(ws: seq<Write>)
    requires DistinctKeys(ws)
    ensures |WrittenKeys(ws)| == |ws|
    decreases |ws|
  {
    if |ws| > 0 {
      var rest := ws[1..];
      assert forall i :: 0 <= i < |rest| ==> rest[i] == ws[i + 1];
      assert WrittenKeys(ws) == {ws[0].key} + WrittenKeys(rest);
      assert ws[0].key !in WrittenKeys(rest);
      DistinctKeysCount(rest);
    }
  }

  /** No chord is assigned by both `a` and `b`. */
  predicate KeysDisjoint(a: seq<Write>, b: seq<Write>)
  {
    forall i, j :: 0 <= i < |a| && 0 <= j < |b| ==> a[i].key != b[j].key
  }

  /** Disjointness from `c` carries over to a concatenation. */
  lemma DisjointConcat(a: seq<Write>, b: seq<Write>, c: seq<Write>)
    requires KeysDisjoint(a, c) && KeysDisjoint(b, c)
    ensures KeysDisjoint(a + b, c)
  {
    var ab := a + b;
    forall i, j | 0 <= i < |ab| && 0 <= j < |c|
      ensures ab[i].key != c[j].key
    {
      if i >= |a| {
        assert ab[i] == b[i - |a|];
      }
    }
  }

  /** The binding of `k` in `m`, if any. */
  function Lookup(m: Keymap, k: Chord): Option<Binding>
  {
    if k in m then Some(m[k]) else None
  }

  /**
   Performs the writes in order on `m`. The result binds exactly the chords
   already bound plus the chords written, and leaves every chord that is not
   written as it was.
   */
  function Apply(m: Keymap, ws: seq<Write>): (r: Keymap)
    ensures r.Keys == m.Keys + WrittenKeys(ws)
    ensures forall k :: k in m && k !in WrittenKeys(ws) ==> r[k] == m[k]
    decreases |ws|
  {
    if |ws| == 0 then m
    else
      assert WrittenKeys(ws) == {ws[0].key} + WrittenKeys(ws[1..]) by {
        assert forall i :: 0 < i < |ws| ==> ws[i] == ws[1..][i - 1];
        assert forall i :: 0 <= i < |ws| - 1 ==> ws[1..][i] == ws[i + 1];
      }
      Apply(m[ws[0].key := ws[0].binding], ws[1..])
  }

  /**
   Reference reading of a write sequence, independent of `Apply`: the binding
   of the last write to `k`, found by scanning from the end.
   */
  function LastWrite(ws: seq<Write>, k: Chord): (r: Option<Binding>)
    ensures r.Some? <==> k in WrittenKeys(ws)
    ensures r.Some? ==> Write(k, r.value) in ws
    decreases |ws|
  {
    if |ws| == 0 then None
    else
      var n := |ws| - 1;
      assert WrittenKeys(ws) == WrittenKeys(ws[..n]) + {ws[n].key} by {
        assert forall i :: 0 <= i < n ==> ws[..n][i] == ws[i];
      }
      if ws[n].key == k then Some(ws[n].binding) else LastWrite(ws[..n], k)
  }

  /** Scanning from the end agrees with peeling off the first write. */
  lemma {:induction false} LastWriteCons(ws: seq<Write>, k: Chord)
    requires |ws| > 0
    ensures LastWrite(ws, k) ==
      (if LastWrite(ws[1..], k).Some? then LastWrite(ws[1..], k)
       else if ws[0].key == k then Some(ws[0].binding)
       else None)
    decreases |ws|
  {
    var n := |ws| - 1;
    if n == 0 {
      assert ws[1..] == [];
    } else if ws[n].key == k {
      assert ws[1..][n - 1] == ws[n];
    } else {
      assert ws[1..][n - 1] == ws[n];
      assert ws[1..][..n - 1] == ws[..n][1..];
      LastWriteCons(ws[..n], k);
    }
  }

  /**
   Last write wins: after the writes, a written chord holds the binding of its
   last write, and any other chord holds what it held before.
   */
  lemma {:induction false} ApplyLookup(m: Keymap, ws: seq<Write>, k: Chord)
    ensures Lookup(Apply(m, ws), k) ==
      (if LastWrite(ws, k).Some? then LastWrite(ws, k) else Lookup(m, k))
    decreases |ws|
  {
    if |ws| > 0 {
      ApplyLookup(m[ws[0].key := ws[0].binding], ws[1..], k);
      LastWriteCons(ws, k);
    }
  }

  /** The effect of a write sequence does not depend on the table it is applied to. */
  lemma ApplyIsUnion(m: Keymap, ws: seq<Write>)
    ensures Apply(m, ws) == m + Apply(map[], ws)
  {
    var r, e := Apply(m, ws), Apply(map[], ws);
    forall k
      ensures Lookup(r, k) == Lookup(m + e, k)
    {
      ApplyLookup(m, ws, k);
      ApplyLookup(map[], ws, k);
    }
    assert forall k :: k in r <==> Lookup(r, k).Some?;
    assert r.Keys == (m + e).Keys;
    assert forall k :: k in r ==> Lookup(r, k) == Some(r[k]);
  }

  /** Running the same writes twice gives the same table as running them once. */
  lemma ApplyIdempotent(m: Keymap, ws: seq<Write>)
    ensures Apply(Apply(m, ws), ws) == Apply(m, ws)
  {
    var e := Apply(map[], ws);
    ApplyIsUnion(m, ws);
    ApplyIsUnion(Apply(m, ws), ws);
    assert (m + e) + e == m + e;
  }

  /** Layering: writing `ws1` then `ws2` is writing their concatenation. */
  lemma {:induction false} ApplyConcat(m: Keymap, ws1: seq<Write>, ws2: seq<Write>)
    ensures Apply(m, ws1 + ws2) == Apply(Apply(m, ws1), ws2)
    decreases |ws1|
  {
    if |ws1| == 0 {
      assert ws1 + ws2 == ws2;
    } else {
      assert (ws1 + ws2)[1..] == ws1[1..] + ws2;
      ApplyConcat(m[ws1[0].key := ws1[0].binding], ws1[1..], ws2);
    }
  }

  /** An override layer applied after a base layer wins on every chord it writes. */
  lemma OverrideWins(m: Keymap, base: seq<Write>, over: seq<Write>, k: Chord)
    requires k in WrittenKeys(over)
    ensures Apply(Apply(m, base), over)[k] == LastWrite(over, k).value
  {
    ApplyLookup(Apply(m, base), over, k);
  }

  /** The last write to a chord, read from the end, is the one no later write overrides. */
  lemma {:induction false} LastWriteAt(ws: seq<Write>, i: nat)
    requires i < |ws|
    requires ws[i].key !in WrittenKeys(ws[i + 1..])
    ensures LastWrite(ws, ws[i].key) == Some(ws[i].binding)
    decreases |ws|
  {
    var n := |ws| - 1;
    if i < n {
      var later, shorter := ws[i + 1..], ws[..n][i + 1..];
      assert later[n - i - 1] == ws[n];
      assert forall j :: 0 <= j < |shorter| ==> shorter[j] == later[j];
      assert WrittenKeys(shorter) <= WrittenKeys(later);
      LastWriteAt(ws[..n], i);
    }
  }

  /** A write that no later write overrides determines the final binding of its chord. */
  lemma LaterWriteWins(m: Keymap, ws: seq<Write>, i: nat)
    requires i < |ws|
    requires ws[i].key !in WrittenKeys(ws[i + 1..])
    ensures Lookup(Apply(m, ws), ws[i].key) == Some(ws[i].binding)
  {
    ApplyLookup(m, ws, ws[i].key);
    LastWriteAt(ws, i);
  }

  /** Joining two write sequences keeps chords distinct when each is distinct and they share none. */
  lemma DistinctConcat(a: seq<Write>, b: seq<Write>)
    requires DistinctKeys(a) && DistinctKeys(b)
    requires KeysDisjoint(a, b)
    ensures DistinctKeys(a + b)
  {
    var ab := a + b;
    forall i, j | 0 <= i < j < |ab|
      ensures ab[i].key != ab[j].key
    {
      if j < |a| {
      } else if i < |a| {
        assert ab[j] == b[j - |a|];
      } else {
        assert ab[i] == b[i - |a|] && ab[j] == b[j - |a|];
      }
    }
  }

  /** With no chord assigned twice, the `i`-th write determines its chord's final binding. */
  lemma DistinctWriteHolds(m: Keymap, ws: seq<Write>, i: nat)
    requires DistinctKeys(ws)
    requires i < |ws|
    ensures Lookup(Apply(m, ws), ws[i].key) == Some(ws[i].binding)
  {
    var rest := ws[i + 1..];
    assert forall j :: 0 <= j < |rest| ==> rest[j] == ws[i + 1 + j];
    LaterWriteWins(m, ws, i);
  }

  /** With no chord assigned twice, every written chord holds exactly its binding. */
  lemma DistinctPostState(m: Keymap, ws: seq<Write>)
    requires DistinctKeys(ws)
    ensures forall i :: 0 <= i < |ws| ==> ws[i].key in Apply(m, ws) && Apply(m, ws)[ws[i].key] == ws[i].binding
  {
    forall i | 0 <= i < |ws|
      ensures ws[i].key in Apply(m, ws) && Apply(m, ws)[ws[i].key] == ws[i].binding
    {
      DistinctWriteHolds(m, ws, i);
    }
  }
}
