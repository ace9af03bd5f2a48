/** A menu: a rectangle of the screen holding named buttons and named text tags,
    all laid out in the 100 x 100 virtual grid of the menu's transform. */
module Menus {
  import opened Errors
  import opened Geometry

  /** A text label drawn on a quad. Its virtual box is fixed at construction; its
      drawn quad, label anchor and font size follow the owning menu's transform
      and are overwritten in place on every resize. */
  class TextTag {
    const text: string
    const box: Box
    var vertices: Quad
    var labelX: int
    var labelY: int
    var fontSize: real

    /** The drawn geometry is exactly what the transform makes of the box. */
    predicate Shows(t: Transform)
      reads this
    {
      && vertices == WidgetQuad(box, t)
      && (labelX, labelY) == LabelCentre(box, t)
      && fontSize == FontSize(box, t)
    }

    constructor (text: string, box: Box, t: Transform)
      ensures this.text == text && this.box == box && Shows(t)
    {
      this.text := text;
      this.box := box;
      new;
      Resize(t);
    }

    /** Recomputes the drawn geometry for a new transform. The box is constant,
        so resizing to the transform already shown changes nothing. */
    method Resize(t: Transform)
      modifies this
      ensures Shows(t)
      ensures old(Shows(t)) ==> unchanged(this)
    {
      vertices := WidgetQuad(box, t);
      labelX, labelY := LabelCentre(box, t).0, LabelCentre(box, t).1;
      fontSize := FontSize(box, t);
    }
  }

  /** A text tag that can be clicked. It holds its tag by composition; its click
      callback is left to the caller, so firing is reported by name instead. */
  class Button {
    const face: TextTag

    constructor (text: string, box: Box, t: Transform)
      ensures fresh(face) && face.text == text && face.box == box && face.Shows(t)
    {
      face := new TextTag(text, box, t);
    }

    /** The strict hit test, on a point of the virtual grid. */
    predicate CheckClick(cx: real, cy: real) {
      Contains(face.box, cx, cy)
    }

    method Resize(t: Transform)
      modifies face
      ensures face.Shows(t)
    {
      face.Resize(t);
    }
  }

  /** The names, in the given order, of the buttons whose box strictly contains
      the virtual point: every button is tested, none stops the others. */
  function Fired(order: seq<string>, buttons: map<string, Button>, cx: real, cy: real): seq<string>
  {
    if order == [] then []
    else
      var last := order[|order| - 1];
      Fired(order[..|order| - 1], buttons, cx, cy)
        + (if last in buttons && buttons[last].CheckClick(cx, cy) then [last] else [])
  }

  predicate Distinct(s: seq<string>) {
    forall i, j | 0 <= i < j < |s| :: s[i] != s[j]
  }

  /** A name fires exactly when it is registered and its button is hit. */
  lemma {:induction false} FiredMembers(order: seq<string>, buttons: map<string, Button>, cx: real, cy: real)
    ensures forall n :: (n in Fired(order, buttons, cx, cy)
      <==> n in order && n in buttons && buttons[n].CheckClick(cx, cy))
  {
    if order != [] {
      var init := order[..|order| - 1];
      FiredMembers(init, buttons, cx, cy);
      assert order == init + [order[|order| - 1]];
    }
  }

  /** Firing follows the order it is given: the names fired for a sequence of
      names are those fired for its first part, then those for the rest. */
  lemma {:induction false} FiredAppend(a: seq<string>, b: seq<string>, buttons: map<string, Button>, cx: real, cy: real)
    ensures Fired(a + b, buttons, cx, cy) == Fired(a, buttons, cx, cy) + Fired(b, buttons, cx, cy)
    decreases |b|
  {
    if b == [] {
      assert a + b == a;
    } else {
      var init := b[..|b| - 1];
      FiredAppend(a, init, buttons, cx, cy);
      assert (a + b)[..|a + b| - 1] == a + init;
      assert (a + b)[|a + b| - 1] == b[|b| - 1];
    }
  }

  /** With distinct names no button fires twice for one click, and no more
      buttons fire than there are names. */
  lemma {:induction false} FiredDistinct(order: seq<string>, buttons: map<string, Button>, cx: real, cy: real)
    requires Distinct(order)
    ensures Distinct(Fired(order, buttons, cx, cy))
    ensures |Fired(order, buttons, cx, cy)| <= |order|
  {
    if order != [] {
      var init := order[..|order| - 1];
      var last := order[|order| - 1];
      assert Distinct(init);
      FiredDistinct(init, buttons, cx, cy);
      FiredMembers(init, buttons, cx, cy);
      assert last !in init;
    }
  }

  class Menu {
    var rect: Rect
    var transform: Transform
    var background: Quad
    /** The button names in insertion order, which is the order clicks test them. */
    var buttonOrder: seq<string>
    var buttons: map<string, Button>
    var texttags: map<string, TextTag>

    /** The objects the menu updates: itself and the tag of every widget. */
    ghost var Repr: set<object>

    /** Names are unique per registry, the button order lists each registered
        button once, every widget's tag belongs to the menu, and no text tag is
        a button's tag. */
    ghost predicate Registry()
      reads this
    {
      && this in Repr
      && (forall n | n in buttons :: buttons[n].face in Repr)
      && (forall n | n in texttags :: texttags[n] in Repr)
      && (forall n, k | n in texttags && k in buttons :: texttags[n] != buttons[k].face)
      && Distinct(buttonOrder)
      && (forall n :: n in buttons <==> n in buttonOrder)
    }

    /** Every widget shows the geometry the transform gives its box. */
    ghost predicate WidgetsShow(t: Transform)
      reads this, Repr
    {
      && (forall n | n in buttons :: buttons[n].face in Repr && buttons[n].face.Shows(t))
      && (forall n | n in texttags :: texttags[n] in Repr && texttags[n].Shows(t))
    }

    /** The menu occupies the rectangle: its transform and background are the
        rectangle's. */
    predicate Fits(r: Rect)
      reads this
    {
      rect == r && transform == FromRect(r) && background == BackgroundQuad(r)
    }

    /** The menu's transform and background follow its rectangle, and every
        widget follows the transform. */
    ghost predicate Valid()
      reads this, Repr
    {
      && Fits(rect)
      && Registry()
      && WidgetsShow(transform)
    }

    constructor (r: Rect)
      ensures Valid() && fresh(Repr)
      ensures rect == r && transform == FromRect(r) && background == BackgroundQuad(r)
      ensures buttonOrder == [] && buttons == map[] && texttags == map[]
    {
      rect := r;
      transform := FromRect(r);
      background := BackgroundQuad(r);
      buttonOrder := [];
      buttons := map[];
      texttags := map[];
      Repr := {this};
    }

    /** Registers a new button under a fresh name, laid out with the current
        transform; a name already in use is an error and changes nothing. */
    method AddButton(name: string, text: string, box: Box) returns (res: Result<Button>)
      requires Valid()
      modifies this
      ensures Valid() && fresh(Repr - old(Repr))
      ensures rect == old(rect) && transform == old(transform) && background == old(background)
      ensures texttags == old(texttags)
      ensures name in old(buttons) ==>
        res == Err(ButtonExists) && buttons == old(buttons) && buttonOrder == old(buttonOrder)
      ensures name !in old(buttons) ==>
        && res.Ok? && fresh(res.value) && fresh(res.value.face)
        && res.value.face.text == text && res.value.face.box == box
        && buttons == old(buttons)[name := res.value]
        && buttonOrder == old(buttonOrder) + [name]
    {
      if name in buttons {
        return Err(ButtonExists);
      }
      var b := new Button(text, box, transform);
      buttons := buttons[name := b];
      buttonOrder := buttonOrder + [name];
      Repr := Repr + {b.face};
      return Ok(b);
    }

    /** Registers a new text tag under a fresh name; a name already in use is an
        error and changes nothing. */
    method AddTextTag(name: string, text: string, box: Box) returns (res: Result<TextTag>)
      requires Valid()
      modifies this
      ensures Valid() && fresh(Repr - old(Repr))
      ensures rect == old(rect) && transform == old(transform) && background == old(background)
      ensures buttons == old(buttons) && buttonOrder == old(buttonOrder)
      ensures name in old(texttags) ==>
        res == Err(TextTagExists) && texttags == old(texttags)
      ensures name !in old(texttags) ==>
        && res.Ok? && fresh(res.value)
        && res.value.text == text && res.value.box == box
        && texttags == old(texttags)[name := res.value]
    {
      if name in texttags {
        return Err(TextTagExists);
      }
      var tag := new TextTag(text, box, transform);
      texttags := texttags[name := tag];
      Repr := Repr + {tag};
      return Ok(tag);
    }

    /** The virtual point of a real click. */
    function ClickPoint(rx: int, ry: int): (real, real)
      reads this
      requires transform.mulX != 0 && transform.mulY != 0
    {
      (ToVirtual(transform.mulX, transform.offX, rx), ToVirtual(transform.mulY, transform.offY, ry))
    }

    /** Converts a real click to the virtual grid once, then tests every button
        in insertion order and reports the names of those that fire. */
    method OnClick(rx: int, ry: int) returns (fired: seq<string>)
      requires Valid() && transform.mulX != 0 && transform.mulY != 0
      ensures fired == Fired(buttonOrder, buttons, ClickPoint(rx, ry).0, ClickPoint(rx, ry).1)
      ensures transform.mulX > 0 && transform.mulY > 0 ==>
        forall n :: n in fired <==> n in buttons && ContainsScaled(buttons[n].face.box, transform, rx, ry)
      ensures Distinct(fired)
    {
      var cx, cy := ToVirtual(transform.mulX, transform.offX, rx), ToVirtual(transform.mulY, transform.offY, ry);
      fired := [];
      var i := 0;
      while i < |buttonOrder|
        invariant 0 <= i <= |buttonOrder|
        invariant fired == Fired(buttonOrder[..i], buttons, cx, cy)
      {
        var name := buttonOrder[i];
        assert buttonOrder[..i + 1][..i] == buttonOrder[..i];
        if name in buttons && buttons[name].CheckClick(cx, cy) {
          fired := fired + [name];
        }
        i := i + 1;
      }
      assert buttonOrder[..i] == buttonOrder;
      FiredMembers(buttonOrder, buttons, cx, cy);
      FiredDistinct(buttonOrder, buttons, cx, cy);
      if transform.mulX > 0 && transform.mulY > 0 {
        forall n | n in buttons
          ensures buttons[n].CheckClick(cx, cy) <==> ContainsScaled(buttons[n].face.box, transform, rx, ry)
        {
          ContainsIffScaled(buttons[n].face.box, transform, rx, ry);
        }
      }
    }

    /** Moves the menu to a new rectangle: the transform and background follow
        it, and every button and text tag is re-laid out, keeping its box. */
    method Resize(r: Rect)
      requires Registry()
      modifies Repr
      ensures Valid() && Repr == old(Repr)
      ensures rect == r && transform == FromRect(r) && background == BackgroundQuad(r)
      ensures buttonOrder == old(buttonOrder) && buttons == old(buttons) && texttags == old(texttags)
      ensures WidgetsShow(FromRect(r))
    {
      rect := r;
      transform := FromRect(r);
      background := BackgroundQuad(r);
      assert Registry();
      ResizeButtons();
      ResizeTextTags();
    }

    /** Applies the current transform to every button, in insertion order. */
    method ResizeButtons()
      requires Registry()
      modifies set n | n in buttons :: buttons[n].face
      ensures unchanged(this)
      ensures forall n | n in texttags :: unchanged(texttags[n])
      ensures forall n | n in buttons :: buttons[n].face.Shows(transform)
    {
      var i := 0;
      while i < |buttonOrder|
        invariant 0 <= i <= |buttonOrder|
        invariant unchanged(this)
        invariant forall j | 0 <= j < i :: buttons[buttonOrder[j]].face.Shows(transform)
      {
        buttons[buttonOrder[i]].Resize(transform);
        i := i + 1;
      }
    }

    /** Applies the current transform to every text tag. */
    method ResizeTextTags()
      requires Registry()
      requires forall n | n in buttons :: buttons[n].face.Shows(transform)
      modifies Repr
      ensures unchanged(this)
      ensures WidgetsShow(transform)
    {
      var todo := texttags.Keys;
      while todo != {}
        invariant todo <= texttags.Keys
        invariant unchanged(this)
        invariant forall n | n in buttons :: buttons[n].face.Shows(transform)
        invariant forall n | n in texttags && n !in todo :: texttags[n].Shows(transform)
        decreases todo
      {
        var n :| n in todo;
        texttags[n].Resize(transform);
        todo := todo - {n};
      }
    }
  }
}
