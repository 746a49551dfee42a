/**
 The window keymaps the configuration registers, as pure data: a global
 table of window-management chords, the weblike layer for Firefox and
 Thunderbird, a one-entry Emacs table, and the Slack table, which is the
 weblike layer followed by Slack-specific overrides.
 */
module Config {
  import opened Wrappers
  import opened Keymaps
  import opened Weblike

  /** Which windows a keymap applies to; the host does the matching. */
  datatype Condition = Condition(exeName: Option<string>, className: Option<string>)

  /**
   A registered window keymap: its condition and the assignments the
   configuration makes to it, in order. The host hands out an empty table,
   so the table in force is those assignments applied to `map[]`.
   */
  datatype Registration = Registration(condition: Condition, writes: seq<Write>)

  function Table(reg: Registration): Keymap
  {
    Apply(map[], reg.writes)
  }

  /** The global table: two window-management chords and six focus-or-launch commands. */
  const GlobalWrites: seq<Write> := [
    Write("W-Semicolon", Single("W-Up")),
    Write("W-q", Single("A-F4")),
    Write("W-h", Activate(ByExeName("firefox.exe"))),
    Write("W-t", Activate(ByExeName("WindowsTerminal.exe"))),
    Write("W-n", Activate(ByEmacsCheck)),
    Write("W-Minus", Activate(ByExeName("slack.exe"))),
    Write("W-b", Activate(ByExeName("KeePassXC.exe"))),
    Write("W-m", Activate(ByExeName("thunderbird.exe")))
  ]

  const EmacsWrites: seq<Write> := [Write("C-m", Single("Enter"))]

  /** Slack's overrides, written after the weblike layer. */
  const SlackWrites: seq<Write> := [
    Write("A-j", Single("A-S-Down")),
    Write("A-k", Single("A-S-Up")),
    Write("A-t", Single("A-Up")),
    Write("A-n", Single("A-Down")),
    Write("Enter", Single("C-Enter")),
    Write("C-Comma", Raw("29")),    // muhenkan
    Write("C-Period", Raw("28"))    // henkan
  ]

  /** The global assignments, written into `m`: each listed chord holds its listed binding, every other chord is kept. */
  function GlobalLayer(m: Keymap): (r: Keymap)
    ensures r.Keys == m.Keys + WrittenKeys(GlobalWrites)
    ensures forall i :: 0 <= i < |GlobalWrites| ==>
      GlobalWrites[i].key in r && r[GlobalWrites[i].key] == GlobalWrites[i].binding
    ensures forall k :: k in m && k !in WrittenKeys(GlobalWrites) ==> r[k] == m[k]
  {
    GlobalWritesDistinct();
    DistinctPostState(m, GlobalWrites);
    Apply(m, GlobalWrites)
  }

  /**
   The weblike layer, then the Slack overrides, written into `m`: each
   override chord holds its override, and every chord neither layer writes
   is kept.
   */
  function SlackLayer(m: Keymap): (r: Keymap)
    ensures r.Keys == m.Keys + WeblikeKeys + WrittenKeys(SlackWrites)
    ensures forall i :: 0 <= i < |SlackWrites| ==>
      SlackWrites[i].key in r && r[SlackWrites[i].key] == SlackWrites[i].binding
    ensures forall k :: k in m && k !in WeblikeKeys && k !in WrittenKeys(SlackWrites) ==> r[k] == m[k]
  {
    SlackWritesDistinct();
    DistinctPostState(SetKeymapWeblike(m), SlackWrites);
    Apply(SetKeymapWeblike(m), SlackWrites)
  }

  /** The registrations in order: global, Firefox, Thunderbird, Emacs, Slack. */
  function Configure(): (r: seq<Registration>)
    ensures |r| == 5
  {
    [
      Registration(Condition(None, None), GlobalWrites),
      Registration(Condition(Some("firefox.exe"), Some("MozillaWindowClass")), WeblikeWrites),
      Registration(Condition(Some("thunderbird.exe"), Some("MozillaWindowClass")), WeblikeWrites),
      Registration(Condition(Some("emacs.exe"), None), EmacsWrites),
      Registration(Condition(Some("slack.exe"), None), WeblikeWrites + SlackWrites)
    ]
  }

  lemma GlobalWritesDistinct()
    ensures DistinctKeys(GlobalWrites)
  {
  }

  lemma SlackWritesDistinct()
    ensures DistinctKeys(SlackWrites)
  {
  }

  /** No Slack override chord is a weblike chord. */
  lemma SlackWritesAvoidWeblike()
    ensures forall i, j :: 0 <= i < |SlackWrites| && 0 <= j < |WeblikeWrites| ==>
      SlackWrites[i].key != WeblikeWrites[j].key
  {
  }

  /** Firefox and Thunderbird get the weblike layer on an empty table, and nothing else. */
  lemma MozillaTables()
    ensures Table(Configure()[1]) == Table(Configure()[2]) == SetKeymapWeblike(map[])
    ensures Table(Configure()[1]).Keys == WeblikeKeys
  {
  }

  /** The global registration's table is the global assignments written into an empty table. */
  lemma GlobalTable()
    ensures Table(Configure()[0]) == GlobalLayer(map[])
  {
  }

  /** Emacs gets `C-m` to `Enter` and nothing else. */
  lemma EmacsTable()
    ensures Table(Configure()[3]) == map["C-m" := Single("Enter")]
  {
    assert EmacsWrites[1..] == [];
  }

  /** The Slack table is the weblike layer on an empty table with the overrides written after it. */
  lemma SlackTable()
    ensures Table(Configure()[4]) == SlackLayer(map[])
  {
    ApplyConcat(map[], WeblikeWrites, SlackWrites);
  }

  /** The global bindings, whatever the table held before. */
  lemma GlobalBindings(m: Keymap)
    ensures Lookup(GlobalLayer(m), "W-Semicolon") == Some(Single("W-Up"))
    ensures Lookup(GlobalLayer(m), "W-q") == Some(Single("A-F4"))
    ensures Lookup(GlobalLayer(m), "W-h") == Some(Activate(ByExeName("firefox.exe")))
    ensures Lookup(GlobalLayer(m), "W-t") == Some(Activate(ByExeName("WindowsTerminal.exe")))
    ensures Lookup(GlobalLayer(m), "W-n") == Some(Activate(ByEmacsCheck))
    ensures Lookup(GlobalLayer(m), "W-Minus") == Some(Activate(ByExeName("slack.exe")))
    ensures Lookup(GlobalLayer(m), "W-b") == Some(Activate(ByExeName("KeePassXC.exe")))
    ensures Lookup(GlobalLayer(m), "W-m") == Some(Activate(ByExeName("thunderbird.exe")))
  {
    GlobalWritesDistinct();
    DistinctWriteHolds(m, GlobalWrites, 0);
    DistinctWriteHolds(m, GlobalWrites, 1);
    DistinctWriteHolds(m, GlobalWrites, 2);
    DistinctWriteHolds(m, GlobalWrites, 3);
    DistinctWriteHolds(m, GlobalWrites, 4);
    DistinctWriteHolds(m, GlobalWrites, 5);
    DistinctWriteHolds(m, GlobalWrites, 6);
    DistinctWriteHolds(m, GlobalWrites, 7);
  }

  /** The global table binds eight different chords. */
  lemma GlobalKeysCount()
    ensures |Table(Configure()[0])| == 8
  {
    GlobalWritesDistinct();
    DistinctKeysCount(GlobalWrites);
  }

  /** The Slack overrides are present after the layering, raw key codes stored verbatim. */
  lemma SlackOverrides(m: Keymap)
    ensures Lookup(SlackLayer(m), "A-j") == Some(Single("A-S-Down"))
    ensures Lookup(SlackLayer(m), "A-k") == Some(Single("A-S-Up"))
    ensures Lookup(SlackLayer(m), "A-t") == Some(Single("A-Up"))
    ensures Lookup(SlackLayer(m), "A-n") == Some(Single("A-Down"))
    ensures Lookup(SlackLayer(m), "Enter") == Some(Single("C-Enter"))
    ensures Lookup(SlackLayer(m), "C-Comma") == Some(Raw("29"))
    ensures Lookup(SlackLayer(m), "C-Period") == Some(Raw("28"))
  {
    var w := SetKeymapWeblike(m);
    SlackWritesDistinct();
    DistinctWriteHolds(w, SlackWrites, 0);
    DistinctWriteHolds(w, SlackWrites, 1);
    DistinctWriteHolds(w, SlackWrites, 2);
    DistinctWriteHolds(w, SlackWrites, 3);
    DistinctWriteHolds(w, SlackWrites, 4);
    DistinctWriteHolds(w, SlackWrites, 5);
    DistinctWriteHolds(w, SlackWrites, 6);
  }

  /** No override touches a weblike chord, so every weblike binding survives in Slack. */
  lemma SlackKeepsWeblike(m: Keymap, k: Chord)
    requires k in WeblikeKeys
    ensures Lookup(SlackLayer(m), k) == Lookup(SetKeymapWeblike(m), k)
  {
    SlackWritesAvoidWeblike();
    assert k !in WrittenKeys(SlackWrites);
  }

  /** The Slack layering binds the weblike chords and the override chords, and nothing else. */
  lemma SlackKeys(m: Keymap)
    ensures SlackLayer(m).Keys == m.Keys + WeblikeKeys + WrittenKeys(SlackWrites)
    ensures m.Keys !! WeblikeKeys + WrittenKeys(SlackWrites) ==> |SlackLayer(m)| == |m| + 31
  {
    SlackWritesAvoidWeblike();
    SlackWritesDistinct();
    DistinctKeysCount(SlackWrites);
    WeblikeKeysCount();
    assert WeblikeKeys !! WrittenKeys(SlackWrites);
  }
}
