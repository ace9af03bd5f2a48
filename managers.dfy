/** The menu manager: a registry of named menus, one of which may be the current
    menu that receives clicks. */
module Managers {
  import opened Errors
  import opened Geometry
  import opened Menus

  /** A deferred switch to a named menu, handed out for a button's callback; it
      captures the manager's target name and nothing else. */
  datatype ChangeHandler = ChangeHandler(target: string)

  /** What a menu holds apart from its geometry: its footprint and registries. */
  datatype MenuState = MenuState(
    repr: set<object>, buttonOrder: seq<string>,
    buttons: map<string, Button>, texttags: map<string, TextTag>)

  /** All objects of the given menu states. */
  ghost function Footprints(s: map<string, MenuState>): set<object> {
    set n, o | n in s && o in s[n].repr :: o
  }

  lemma FootprintsCover(s: map<string, MenuState>, n: string)
    requires n in s
    ensures s[n].repr <= Footprints(s)
  {
  }

  lemma SameState(s: map<string, MenuState>, t: map<string, MenuState>)
    requires s.Keys == t.Keys && forall n | n in s :: s[n] == t[n]
    ensures s == t
  {
  }

  class MenuManager {
    var menus: map<string, Menu>
    /** The current menu, if any: a reference into the registry, not a copy. */
    var current: Menu?

    /** Everything the manager may update: itself and every registered menu's
        objects. It is computed from the menus, so a menu that grows through a
        reference obtained from GetMenu grows the manager's footprint with it. */
    ghost function Repr(): set<object>
      reads this`menus, menus.Values
    {
      {this as object} + Footprints(State())
    }

    /** The current menu is none or one of the registered menus. */
    ghost predicate Registered()
      reads this
    {
      current == null || current in menus.Values
    }

    /** The current menu is registered and every registered menu is owned. */
    ghost predicate Valid()
      reads this, menus.Values, Repr()
    {
      Registered() && Owned()
    }

    /** Every registered menu keeps a coherent registry and owns its objects
        alone. Whether its widgets show its current transform is the menu's own
        invariant: the operations that build or move menus promise it. */
    ghost predicate Owned()
      reads this`menus, menus.Values, Footprints(State())
    {
      && (forall n | n in menus ::
            && menus[n] in menus[n].Repr && this !in menus[n].Repr
            && (FootprintsCover(State(), n); menus[n].Registry()))
      && (forall n, m | n in menus && m in menus && n != m :: menus[n].Repr !! menus[m].Repr)
    }

    constructor ()
      ensures Valid() && menus == map[] && current == null
    {
      menus := map[];
      current := null;
    }

    /** Creates an empty menu on the given rectangle under a fresh name; a name in
        use is an error and changes nothing. The current menu is not changed. */
    method MakeMenu(name: string, r: Rect) returns (res: Outcome)
      requires Valid()
      modifies this
      ensures Valid() && current == old(current)
      ensures name in old(menus) ==> res == Fail(MenuExists) && menus == old(menus)
      ensures name !in old(menus) ==>
        && res == Pass && name in menus
        && fresh(menus[name]) && fresh(menus[name].Repr)
        && menus == old(menus)[name := menus[name]]
        && menus[name].rect == r && menus[name].transform == FromRect(r)
        && menus[name].background == BackgroundQuad(r)
        && menus[name].buttonOrder == [] && menus[name].buttons == map[] && menus[name].texttags == map[]
        && menus[name].Valid()
    {
      if name in menus {
        return Fail(MenuExists);
      }
      var m := new Menu(r);
      ghost var before := menus;
      menus := menus[name := m];
      if current != null {
        ghost var k :| k in before && before[k] == current;
        assert menus[k] == current;
      }
      return Pass;
    }

    /** Makes the named menu current; an absent name is an error and leaves the
        current menu as it was. No menu is changed either way. */
    method ChangeMenu(name: string) returns (res: Outcome)
      requires Registered()
      modifies this`current
      ensures Registered() && (old(Valid()) ==> Valid()) && menus == old(menus)
      ensures name in menus ==> res == Pass && current == menus[name]
      ensures name !in menus ==> res == Fail(NoMenu) && current == old(current)
    {
      if name !in menus {
        return Fail(NoMenu);
      }
      current := menus[name];
      return Pass;
    }

    /** The current menu, or none; never an error. */
    function GetCurrentMenu(): (m: Menu?)
      reads this
      requires Registered()
      ensures m == null || m in menus.Values
    {
      current
    }

    /** The registered menu itself (not a copy), or NoMenu for an absent name. */
    function GetMenu(name: string): (res: Result<Menu>)
      reads this
      ensures res.Ok? <==> name in menus
      ensures res.Ok? ==> res.value == menus[name]
      ensures res.Err? ==> res.error == NoMenu
    {
      if name in menus then Ok(menus[name]) else Err(NoMenu)
    }

    /** A handler that switches to the named menu when run. The name is checked
        now, not when the handler runs. */
    function GetChangeMenu(name: string): (res: Result<ChangeHandler>)
      reads this
      ensures res.Ok? <==> name in menus
      ensures res.Ok? ==> res.value.target == name
      ensures res.Err? ==> res.error == NoMenu
    {
      if name !in menus then Err(NoMenu) else Ok(ChangeHandler(name))
    }

    /** Runs a handler: the switch it captured. Menus are never removed, so a
        handler obtained from GetChangeMenu always succeeds. */
    method RunHandler(h: ChangeHandler) returns (res: Outcome)
      requires Registered()
      modifies this`current
      ensures Registered() && (old(Valid()) ==> Valid()) && menus == old(menus)
      ensures h.target in menus ==> res == Pass && current == menus[h.target]
      ensures h.target !in menus ==> res == Fail(NoMenu) && current == old(current)
    {
      res := ChangeMenu(h.target);
    }

    /** Hands a click to the current menu, which must be set. */
    method OnClick(rx: int, ry: int) returns (fired: seq<string>)
      requires current != null && current.Valid()
      requires current.transform.mulX != 0 && current.transform.mulY != 0
      ensures fired == Fired(current.buttonOrder, current.buttons,
                             current.ClickPoint(rx, ry).0, current.ClickPoint(rx, ry).1)
      ensures current.transform.mulX > 0 && current.transform.mulY > 0 ==>
        forall n :: n in fired <==>
          n in current.buttons && ContainsScaled(current.buttons[n].face.box, current.transform, rx, ry)
      ensures Distinct(fired)
    {
      fired := current.OnClick(rx, ry);
    }

    /** The registries and footprint of every menu, by name. */
    ghost function State(): map<string, MenuState>
      reads this`menus, menus.Values
    {
      map n | n in menus :: MenuState(menus[n].Repr, menus[n].buttonOrder, menus[n].buttons, menus[n].texttags)
    }

    /** Every menu of the given names is valid and occupies the rectangle. */
    ghost predicate FitAll(names: set<string>, r: Rect)
      reads this, menus.Values, Footprints(State())
    {
      forall n | n in names && n in menus ::
        menus[n].Fits(r) && (FootprintsCover(State(), n); menus[n].Valid())
    }

    /** Moves every registered menu, current or not, to the same rectangle; no
        registry and no footprint changes. */
    method Resize(r: Rect)
      requires Valid()
      modifies Repr()
      ensures Valid() && menus == old(menus) && current == old(current)
      ensures State() == old(State())
      ensures forall n | n in menus :: menus[n].Fits(r) && menus[n].Valid()
    {
      var todo := menus.Keys;
      while todo != {}
        invariant todo <= menus.Keys
        invariant Valid() && menus == old(menus) && current == old(current)
        invariant State() == old(State())
        invariant FitAll(menus.Keys - todo, r)
        decreases todo
      {
        var n :| n in todo;
        FootprintsCover(State(), n);
        ResizeOne(n, r, menus.Keys - todo);
        todo := todo - {n};
      }
    }

    /** Resizes one registered menu; the others keep their state. */
    method ResizeOne(name: string, r: Rect, ghost done: set<string>)
      requires Valid() && name in menus
      requires FitAll(done, r)
      modifies menus[name].Repr
      ensures Valid() && State() == old(State())
      ensures FitAll(done + {name}, r)
    {
      ghost var before := State();
      var m := menus[name];
      m.Resize(r);
      ghost var after := State();
      forall n | n in menus
        ensures after[n] == before[n]
        ensures n != name ==> unchanged(menus[n]) && menus[n].Registry()
        ensures n in done + {name} ==> menus[n].Fits(r) && menus[n].Valid()
      {
        if n != name {
          assert menus[n] in menus[n].Repr && menus[n].Repr !! m.Repr;
          assert n in done ==> old(menus[n].Fits(r) && menus[n].Valid());
        }
      }
      SameState(before, after);
    }
  }
}
