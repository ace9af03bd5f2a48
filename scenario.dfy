/** The demonstration program: two full-window menus, a switch to the first,
    two buttons and a text tag on it, and then clicks delivered in real pixels. */
module Scenario {
  import opened Errors
  import opened Geometry
  import opened Menus
  import opened Managers

  /** The demonstration's window rectangle. */
  const Window := Rect(100, 100, 700, 700)

  /** The demonstration's manager before any widget is added: menus "test" and
      "blank" on the same rectangle, with "test" current. */
  method Build() returns (mgr: MenuManager, test: Menu, blank: Menu)
    ensures fresh(mgr) && fresh(test.Repr) && fresh(blank.Repr) && test.Repr !! blank.Repr
    ensures mgr !in test.Repr && mgr !in blank.Repr
    ensures mgr.Valid() && mgr.current == test && test.Valid() && blank.Valid()
    ensures mgr.menus == map["test" := test, "blank" := blank]
    ensures test.transform == Transform(7, 7, 100, 100) && blank.transform == test.transform
    ensures test.buttonOrder == [] && test.buttons == map[] && test.texttags == map[]
    ensures blank.buttonOrder == [] && blank.buttons == map[]
    ensures test.rect == Window && blank.rect == Window && blank.texttags == map[]
  {
    FromRectExample();
    mgr := new MenuManager();
    var made := mgr.MakeMenu("test", Window);
    test := mgr.menus["test"];
    made := mgr.MakeMenu("blank", Window);
    blank := mgr.menus["blank"];
    var changed := mgr.ChangeMenu("test");
  }

  /** Adds the demonstration's widgets to an empty menu: button "he" on
      (0, 0, 25, 25), button "hi" on (25, 25, 25, 45) and the text tag "hl" on
      (50, 70, 50, 30). */
  method Populate(m: Menu)
    requires m.Valid() && m.buttons == map[] && m.buttonOrder == [] && m.texttags == map[]
    modifies m
    ensures m.Valid() && fresh(m.Repr - old(m.Repr)) && m.transform == old(m.transform)
    ensures m.buttonOrder == ["he", "hi"] && m.buttons.Keys == {"he", "hi"}
    ensures m.buttons["he"].face.box == Box(0, 0, 25, 25)
    ensures m.buttons["hi"].face.box == Box(25, 25, 25, 45)
    ensures m.texttags.Keys == {"hl"} && m.texttags["hl"].box == Box(50, 70, 50, 30)
  {
    var he := m.AddButton("he", "hi", Box(0, 0, 25, 25));
    var hi := m.AddButton("hi", "bye", Box(25, 25, 25, 45));
    var hl := m.AddTextTag("hl", "la", Box(50, 70, 50, 30));
  }

  /** The whole demonstration set-up, reached through the manager as the
      demonstration does: the widgets go on the menu GetMenu returns. */
  method Setup() returns (mgr: MenuManager, test: Menu, blank: Menu)
    ensures fresh(mgr) && fresh(test.Repr) && fresh(blank.Repr) && mgr !in test.Repr && mgr !in blank.Repr
    ensures test.Repr !! blank.Repr
    ensures mgr.Valid() && mgr.current == test && test.Valid() && blank.Valid()
    ensures mgr.menus == map["test" := test, "blank" := blank]
    ensures test.transform == Transform(7, 7, 100, 100) && blank.transform == test.transform
    ensures test.buttonOrder == ["he", "hi"] && test.buttons.Keys == {"he", "hi"}
    ensures test.buttons["he"].face.box == Box(0, 0, 25, 25)
    ensures test.buttons["hi"].face.box == Box(25, 25, 25, 45)
    ensures test.texttags.Keys == {"hl"} && test.texttags["hl"].box == Box(50, 70, 50, 30)
    ensures blank.buttonOrder == [] && blank.buttons == map[]
  {
    mgr, test, blank := Build();
    var got := mgr.GetMenu("test");
    Populate(got.value);
    Readmitted(mgr, test, blank);
  }

  /** Two menus with coherent registries that share no object, and that do not
      own the manager, make a valid manager however they were changed. */
  lemma Readmitted(mgr: MenuManager, test: Menu, blank: Menu)
    requires mgr.menus == map["test" := test, "blank" := blank] && mgr.current == test
    requires test.Registry() && blank.Registry() && test.Repr !! blank.Repr
    requires mgr !in test.Repr && mgr !in blank.Repr
    ensures mgr.Valid()
  {
    assert mgr.menus["test"] == test;
    assert mgr.State()["test"].repr == test.Repr && mgr.State()["blank"].repr == blank.Repr;
  }

  /** Firing over two names tests the first, then the second. */
  lemma FiredTwo(a: string, b: string, buttons: map<string, Button>, cx: real, cy: real)
    ensures Fired([a, b], buttons, cx, cy)
      == (if a in buttons && buttons[a].CheckClick(cx, cy) then [a] else [])
       + (if b in buttons && buttons[b].CheckClick(cx, cy) then [b] else [])
  {
    assert [a, b][..1] == [a] && [a][..0] == [];
    assert Fired([a], buttons, cx, cy)
      == Fired([], buttons, cx, cy) + (if a in buttons && buttons[a].CheckClick(cx, cy) then [a] else []);
  }

  /** The facts about the current menu the demonstration's clicks rely on. */
  ghost predicate OnTest(mgr: MenuManager, test: Menu)
    reads mgr, test, test.Repr
  {
    && mgr.current == test && test.Valid() && test.transform == Transform(7, 7, 100, 100)
    && test.buttonOrder == ["he", "hi"] && test.buttons.Keys == {"he", "hi"}
    && test.buttons["he"].face.box == Box(0, 0, 25, 25)
    && test.buttons["hi"].face.box == Box(25, 25, 25, 45)
  }

  /** A click at (112, 112) is (12/7, 12/7) in the virtual grid: inside "he". */
  method ClickInHe(mgr: MenuManager, test: Menu) returns (fired: seq<string>)
    requires OnTest(mgr, test)
    ensures fired == ["he"]
  {
    FiredTwo("he", "hi", test.buttons, 12.0 / 7.0, 12.0 / 7.0);
    fired := mgr.OnClick(112, 112);
  }

  /** A click at (100, 100) is the virtual origin, the corner of "he": the hit
      test is strict, so nothing fires. */
  method ClickCorner(mgr: MenuManager, test: Menu) returns (fired: seq<string>)
    requires OnTest(mgr, test)
    ensures fired == []
  {
    FiredTwo("he", "hi", test.buttons, 0.0, 0.0);
    fired := mgr.OnClick(100, 100);
  }

  /** A click at (275, 275) is (25, 25), the corner "he" and "hi" share:
      neither fires. */
  method ClickShared(mgr: MenuManager, test: Menu) returns (fired: seq<string>)
    requires OnTest(mgr, test)
    ensures fired == []
  {
    FiredTwo("he", "hi", test.buttons, 25.0, 25.0);
    fired := mgr.OnClick(275, 275);
  }

  /** A click at (300, 300) is (200/7, 200/7): inside "hi" only. */
  method ClickInHi(mgr: MenuManager, test: Menu) returns (fired: seq<string>)
    requires OnTest(mgr, test)
    ensures fired == ["hi"]
  {
    FiredTwo("he", "hi", test.buttons, 200.0 / 7.0, 200.0 / 7.0);
    fired := mgr.OnClick(300, 300);
  }

  /** The callback of "hi": a change of the current menu to "blank". */
  method RunHiCallback(mgr: MenuManager, test: Menu, blank: Menu) returns (res: Outcome)
    requires mgr.menus == map["test" := test, "blank" := blank] && mgr.current == test
    modifies mgr`current
    ensures res == Pass && mgr.current == blank && mgr.menus == old(mgr.menus)
  {
    assert mgr.menus["test"] == test;
    res := mgr.ChangeMenu("blank");
  }

  /** Switching back to "test" by name, a step the demonstration itself does
      not take: it shows that switching menus changes no menu. */
  method SwitchBack(mgr: MenuManager, test: Menu, blank: Menu) returns (res: Outcome)
    requires mgr.menus == map["test" := test, "blank" := blank] && mgr.current == blank
    modifies mgr`current
    ensures res == Pass && mgr.current == test && mgr.menus == old(mgr.menus)
  {
    assert mgr.menus["blank"] == blank;
    res := mgr.ChangeMenu("test");
  }

  /** On the empty menu "blank" no click fires anything. */
  method ClickOnBlank(mgr: MenuManager, blank: Menu, rx: int, ry: int) returns (fired: seq<string>)
    requires mgr.current == blank && blank.Valid() && blank.transform == Transform(7, 7, 100, 100)
    requires blank.buttonOrder == []
    ensures fired == []
  {
    fired := mgr.OnClick(rx, ry);
  }

  /** The callback of "hi" moves the manager to "blank", where the same click
      fires nothing; switching back by name finds "test" as it was left. */
  method AwayAndBack(mgr: MenuManager, test: Menu, blank: Menu) returns (away: seq<string>, back: seq<string>)
    requires OnTest(mgr, test) && mgr.menus == map["test" := test, "blank" := blank]
    requires blank.Valid() && blank.transform == test.transform && blank.buttonOrder == []
    requires mgr !in test.Repr && mgr !in blank.Repr
    modifies mgr`current
    ensures away == [] && back == ["he"] && mgr.current == test
  {
    var switched := RunHiCallback(mgr, test, blank);
    away := ClickOnBlank(mgr, blank, 300, 300);
    switched := SwitchBack(mgr, test, blank);
    back := ClickInHe(mgr, test);
  }

  /** The demonstration end to end: set up, click "he", click "hi", run its
      callback and click again, now on "blank"; then, beyond what the
      demonstration does, switch back to "test", whose buttons the switches
      left as they were. */
  method Demo() returns (first: seq<string>, second: seq<string>, third: seq<string>, fourth: seq<string>)
    ensures first == ["he"] && second == ["hi"] && third == [] && fourth == ["he"]
  {
    var mgr, test, blank := Setup();
    first := ClickInHe(mgr, test);
    second := ClickInHi(mgr, test);
    third, fourth := AwayAndBack(mgr, test, blank);
  }

  /** The footprint of a manager holding two menus is theirs and its own. */
  lemma ReprOfTwo(mgr: MenuManager, test: Menu, blank: Menu)
    requires mgr.menus == map["test" := test, "blank" := blank]
    ensures mgr.Repr() == {mgr} + test.Repr + blank.Repr
  {
    var s := mgr.State();
    assert s.Keys == {"test", "blank"} && s["test"].repr == test.Repr && s["blank"].repr == blank.Repr;
    FootprintsCover(s, "test");
    FootprintsCover(s, "blank");
  }

  /** A click at (112, 112) on "test" moved to (100, 100, 800, 800), whose
      transform is (8, 8, 100, 100): the virtual point (3/2, 3/2) is inside "he"
      only. */
  method ClickMovedHe(mgr: MenuManager, test: Menu) returns (fired: seq<string>)
    requires mgr.current == test && test.Valid() && test.transform == Transform(8, 8, 100, 100)
    requires test.buttonOrder == ["he", "hi"] && test.buttons.Keys == {"he", "hi"}
    requires test.buttons["he"].face.box == Box(0, 0, 25, 25)
    requires test.buttons["hi"].face.box == Box(25, 25, 25, 45)
    ensures fired == ["he"]
  {
    FiredTwo("he", "hi", test.buttons, 1.5, 1.5);
    fired := mgr.OnClick(112, 112);
  }

  /** The window handler's resize for a 900 x 900 window, which keeps a margin
      of 100 pixels on the left and at the bottom: it reaches every menu, and "test" keeps its buttons and
      boxes and takes the new rectangle's transform. */
  method MoveAll(mgr: MenuManager, test: Menu, blank: Menu)
    requires mgr.Valid() && mgr.menus == map["test" := test, "blank" := blank] && mgr.current == test
    requires test.buttonOrder == ["he", "hi"] && test.buttons.Keys == {"he", "hi"}
    modifies mgr, test.Repr, blank.Repr
    ensures mgr.current == test && test.Valid() && test.transform == Transform(8, 8, 100, 100)
    ensures test.buttonOrder == ["he", "hi"] && test.buttons.Keys == {"he", "hi"}
    ensures test.buttons["he"] == old(test.buttons["he"]) && test.buttons["hi"] == old(test.buttons["hi"])
    ensures test.Fits(Rect(100, 100, 800, 800)) && blank.Fits(Rect(100, 100, 800, 800)) && blank.Valid()
  {
    ReprOfTwo(mgr, test, blank);
    assert FromRect(Rect(100, 100, 800, 800)) == Transform(8, 8, 100, 100);
    ghost var before := mgr.State();
    assert before["test"].buttonOrder == ["he", "hi"] && before["test"].buttons == test.buttons;
    mgr.Resize(Rect(100, 100, 800, 800));
    assert mgr.menus["test"] == test && mgr.State()["test"] == before["test"];
    assert test.Fits(Rect(100, 100, 800, 800));
    assert mgr.menus["blank"] == blank;
    assert blank.Fits(Rect(100, 100, 800, 800)) && blank.Valid();
  }

  /** After the window grows to 900 x 900 a click is read with the new
      transform. */
  method ResizeDemo() returns (fired: seq<string>)
    ensures fired == ["he"]
  {
    var mgr, test, blank := Setup();
    MoveAll(mgr, test, blank);
    fired := ClickMovedHe(mgr, test);
  }
}
