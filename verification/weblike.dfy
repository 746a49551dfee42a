/**
 The "weblike" layer: browser-style editing chords (line start/end, word
 motion, delete, undo, cut-to-end-of-line, a `C-x` multi-stroke prefix)
 written into a window keymap, one assignment per chord.
 */
module Weblike {
  import opened Wrappers
  import opened Keymaps

  /** The second-stroke table installed under the `C-x` prefix. */
  const PrefixCxStrokes: map<Chord, Chord> := map["C-g" := "Esc", "C-h" := "C-a"]

  /** Paste, cancel and undo. */
  const BasicWrites: seq<Write> := [
    Write("C-y", Single("C-v")),
    Write("C-g", Single("Esc")),
    Write("C-Slash", Single("C-z"))
  ]

  /** Line start and end, new and reopened tab, cut the whole line. */
  const LineWrites: seq<Write> := [
    Write("C-a", Single("Home")),
    Write("C-o", Single("C-t")),
    Write("A-o", Single("C-S-t")),
    Write("C-e", Single("End")),
    Write("C-u", Macro(["Home", "S-End", "C-x"]))
  ]

  /** Forward delete, cursor and word motion, reopen a closed tab. */
  const MotionWrites: seq<Write> := [
    Write("C-d", Single("Delete")),
    Write("C-h", Single("Left")),
    Write("A-h", Single("C-Left")),
    Write("C-t", Single("Up")),
    Write("C-n", Single("Down")),
    Write("C-s", Single("Right")),
    Write("A-s", Single("C-Right")),
    Write("A-Minus", Single("C-S-t"))
  ]

  /** Close tab, cut to end of line, the `C-x` prefix, backspace, enter, cut and copy. */
  const EditWrites: seq<Write> := [
    Write("C-q", Single("C-w")),
    Write("C-k", Macro(["S-End", "C-x"])),
    Write("C-x", MultiStroke("C-X", PrefixCxStrokes)),
    Write("C-b", Single("Back")),
    Write("A-b", Single("C-Back")),
    Write("C-m", Single("Enter")),
    Write("C-w", Single("C-x")),
    Write("A-w", Single("C-c"))
  ]

  /** The assignments, in the order the layer performs them. */
  const WeblikeWrites: seq<Write> := BasicWrites + LineWrites + MotionWrites + EditWrites

  /** The chords the layer binds. */
  const WeblikeKeys: set<Chord> := WrittenKeys(WeblikeWrites)

  /** Within each group of assignments no chord repeats. */
  lemma GroupsDistinct()
    ensures DistinctKeys(BasicWrites) && DistinctKeys(LineWrites)
    ensures DistinctKeys(MotionWrites) && DistinctKeys(EditWrites)
  {
  }

  /** The groups share no chord (split in three to keep each proof small). */
  lemma EarlyGroupsDisjoint()
    ensures KeysDisjoint(BasicWrites, LineWrites)
    ensures KeysDisjoint(BasicWrites, MotionWrites)
    ensures KeysDisjoint(LineWrites, MotionWrites)
  {
  }

  lemma EditGroupDisjoint()
    ensures KeysDisjoint(BasicWrites, EditWrites)
    ensures KeysDisjoint(LineWrites, EditWrites)
  {
  }

  lemma MotionEditDisjoint()
    ensures KeysDisjoint(MotionWrites, EditWrites)
  {
  }

  /** No chord is assigned twice by the layer. */
  lemma WeblikeWritesDistinct()
    ensures DistinctKeys(WeblikeWrites)
  {
    GroupsDistinct();
    EarlyGroupsDisjoint();
    EditGroupDisjoint();
    MotionEditDisjoint();
    DistinctConcat(BasicWrites, LineWrites);
    DisjointConcat(BasicWrites, LineWrites, MotionWrites);
    DistinctConcat(BasicWrites + LineWrites, MotionWrites);
    DisjointConcat(BasicWrites, LineWrites, EditWrites);
    DisjointConcat(BasicWrites + LineWrites, MotionWrites, EditWrites);
    DistinctConcat(BasicWrites + LineWrites + MotionWrites, EditWrites);
  }

  /** The layer binds 24 different chords. */
  lemma WeblikeKeysCount()
    ensures |WeblikeKeys| == 24
  {
    WeblikeWritesDistinct();
    DistinctKeysCount(WeblikeWrites);
  }

  /**
   Writes the weblike layer into `m`. Afterwards each of the 24 chords holds
   exactly the binding the layer lists for it, and every other chord keeps
   whatever binding it had.
   */
  function SetKeymapWeblike(m: Keymap): (r: Keymap)
    ensures r.Keys == m.Keys + WeblikeKeys
    ensures forall i :: 0 <= i < |WeblikeWrites| ==>
      WeblikeWrites[i].key in r && r[WeblikeWrites[i].key] == WeblikeWrites[i].binding
    ensures forall k :: k in m && k !in WeblikeKeys ==> r[k] == m[k]
  {
    WeblikeWritesDistinct();
    DistinctPostState(m, WeblikeWrites);
    Apply(m, WeblikeWrites)
  }

  /** Selected bindings of the layer, whatever the table held before. */
  lemma WeblikeBindings(m: Keymap)
    ensures Lookup(SetKeymapWeblike(m), "C-m") == Some(Single("Enter"))
    ensures Lookup(SetKeymapWeblike(m), "C-w") == Some(Single("C-x"))
    ensures Lookup(SetKeymapWeblike(m), "C-y") == Some(Single("C-v"))
    ensures Lookup(SetKeymapWeblike(m), "C-a") == Some(Single("Home"))
    ensures Lookup(SetKeymapWeblike(m), "A-Minus") == Some(Single("C-S-t"))
    ensures Lookup(SetKeymapWeblike(m), "C-u") == Some(Macro(["Home", "S-End", "C-x"]))
    ensures Lookup(SetKeymapWeblike(m), "C-k") == Some(Macro(["S-End", "C-x"]))
  {
    var ws := WeblikeWrites;
    assert ws[21].key == "C-m" && ws[22].key == "C-w" && ws[0].key == "C-y";
    assert ws[3].key == "C-a" && ws[15].key == "A-Minus";
    assert ws[7].key == "C-u" && ws[17].key == "C-k";
  }

  /**
   `C-x` becomes a multi-stroke prefix whose second-stroke table holds exactly
   `C-g` to `Esc` and `C-h` to `C-a`.
   */
  lemma WeblikePrefixCx(m: Keymap)
    ensures "C-x" in SetKeymapWeblike(m)
    ensures SetKeymapWeblike(m)["C-x"].MultiStroke?
    ensures SetKeymapWeblike(m)["C-x"].strokes.Keys == {"C-g", "C-h"}
    ensures SetKeymapWeblike(m)["C-x"].strokes["C-g"] == "Esc"
    ensures SetKeymapWeblike(m)["C-x"].strokes["C-h"] == "C-a"
  {
    assert WeblikeWrites[18].key == "C-x";
  }

  /** A chord the layer does not list keeps its prior binding, or stays unbound. */
  lemma WeblikeFrame(m: Keymap, k: Chord)
    requires k !in WeblikeKeys
    ensures Lookup(SetKeymapWeblike(m), k) == Lookup(m, k)
  {
  }

  /** Writing the layer twice gives the same table as writing it once. */
  lemma WeblikeIdempotent(m: Keymap)
    ensures SetKeymapWeblike(SetKeymapWeblike(m)) == SetKeymapWeblike(m)
  {
    ApplyIdempotent(m, WeblikeWrites);
  }
}
