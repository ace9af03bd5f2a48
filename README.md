# PygletMenu: menus on a scaled virtual grid

PygletMenu lays out buttons and text labels in a 100 x 100 virtual grid. The
grid is scaled into a menu's real pixel rectangle by a whole-pixel multiplier
per axis and centred by an offset. A menu manager keeps named menus and makes
one of them current. Clicks arrive in real pixels, are divided back into the
grid, and are tested against every button of the current menu. A resize
recomputes each menu's transform and re-lays out every widget.

This project models that core of `menus.py` in Dafny and proves properties of it:

- `Geometry` holds the pure transform: the rectangle-to-transform map, the forward
  and inverse maps, the strict hit test, widget quads, label anchors and font
  sizes.
- `Errors` holds the error kinds the source raises, as values.
- `Menus` holds the classes `TextTag`, `Button` and `Menu`. Their fields are
  updated in place, as the source's objects are.
- `Managers` holds the class `MenuManager`, a map of named menus plus a
  reference to the current one.
- `Scenario` replays the demonstration program `main` on concrete values: two
  menus, two buttons, a text tag, clicks, the "hi" button's menu switch and a
  window resize. It adds one step the demonstration does not take, a switch
  back to "test", to show that switching menus changes no menu.

The source raises exceptions for duplicate names and unknown menus. Here each
such operation returns a `Result` or an `Outcome` value instead, and an error
leaves the state unchanged.

## Model

| member | source | states |
|---|---|---|
| Geometry.FromRect | menus.py:17-18 | the multiplier is the number of whole 100-pixel grids in the width and height; the offset splits the left-over pixels, half before the grid and the odd pixel after; a rectangle of at least 100 x 100 gives multipliers of at least 1 |
| Geometry.FromRectExample | menus.py:84-85 | the rectangle (100, 100, 700, 700) gives multiplier (7, 7) and offset (100, 100) |
| Geometry.GridCentred | menus.py:30-34 | the whole virtual grid, mapped to the screen, lies inside the menu's background quad, centred to within one pixel on each axis |
| Geometry.BackgroundQuad | menus.py:30-34 | defines a menu's background quad: the rectangle's corners in the order bottom left, top left, top right, bottom right, as the vertex list is written again on resize at menus.py:87-88 |
| Geometry.ToReal | menus.py:111-116 | defines the forward map of one axis: a virtual coordinate times the multiplier plus the offset, as a tag's constructor and resize (menus.py:145-150) compute its origin |
| Geometry.ToRealSize | menus.py:113-116 | defines the forward map of a length: a virtual size times the multiplier, with no offset |
| Geometry.ToVirtual | menus.py:70-75 | the inverse map is exact: the virtual coordinate times the multiplier is the click's distance from the offset |
| Geometry.VirtualRoundTrip | menus.py:70-75 | mapping a virtual coordinate to the screen and back returns it exactly |
| Geometry.RealRoundTrip | menus.py:70-75 | mapping a real coordinate into the grid and back returns it exactly |
| Menus.Menu.ClickPoint | menus.py:70-75 | defines the virtual point of a real click: on each axis, the distance from the offset divided by the multiplier |
| Geometry.Contains | menus.py:172-173 | defines the strict hit test: the point lies strictly between the box's left and right edges and strictly between its bottom and top edges |
| Menus.Button.CheckClick | menus.py:171-174 | defines a button's hit test as the strict test on its tag's box; where the source then calls the callback, the model reports the name through Fired |
| Geometry.ContainsIffScaled | menus.py:171-174 | for positive multipliers, the strict hit test on the divided click point holds exactly when the click lies strictly between the scaled box edges in integer pixels |
| Geometry.BorderNeverHits | menus.py:171-174 | a point on a box's border never hits it, because the test is strict |
| Geometry.HitTestExample | menus.py:171-174 | the box (0, 0, 25, 25) misses its corners (0, 0) and (25, 25) and hits (12, 12) |
| Geometry.WidgetQuad | menus.py:118-122 | defines a widget's drawn quad from its box's forward-mapped origin and sizes, in the vertex order the constructor and resize (menus.py:152-153) write |
| Geometry.LabelCentre | menus.py:129-130 | defines a label's anchor: the real origin plus half the real size, halved with floor division, as resize repeats at menus.py:154-155 |
| Geometry.FontSize | menus.py:124-127 | defines a label's font size: the shorter virtual side times the smaller of half the horizontal multiplier and the vertical multiplier, as resize repeats at menus.py:157-158 |
| Geometry.QuadCorners | menus.py:108-122 | a widget's quad lists the forward images of its box's corners in drawing order: bottom left, bottom right, top right, top left |
| Geometry.LabelCentred | menus.py:124-133 | the label anchor is the quad's midpoint on each axis, rounded down |
| Geometry.FontSizeBounds | menus.py:124-127 | the font size is the shorter virtual side times half the horizontal multiplier or the vertical multiplier, whichever gives the smaller size for a non-negative side |
| Menus.TextTag.constructor | menus.py:97-133 | a new tag keeps its text and virtual box and shows the quad, anchor and font size the transform gives that box |
| Menus.TextTag.Resize | menus.py:141-158 | after a resize the tag shows the new transform's geometry for its unchanged box; resizing to the transform already shown changes nothing |
| Menus.Button.constructor | menus.py:160-169 | a button is a fresh tag with the given text and box, showing the transform |
| Menus.Button.Resize | menus.py:141-158 | a button's resize is its tag's resize |
| Menus.Fired | menus.py:76-77 | defines what one click fires: the names of the order, in order, whose button is registered and hit, every button tested whatever the others do |
| Menus.FiredMembers | menus.py:76-77 | a name fires exactly when it is in the button order, registered, and its button's strict hit test holds |
| Menus.FiredAppend | menus.py:76-77 | firing follows the button order: the names fired for an order are those fired for its first part followed by those fired for the rest |
| Menus.FiredDistinct | menus.py:76-77 | with distinct names no button fires twice and no more fire than there are names |
| Menus.Menu.constructor | menus.py:10-34 | a new menu has the rectangle's transform and background quad and no widgets, and is valid |
| Menus.Menu.AddButton | menus.py:36-48 | a fresh name registers a new button, last in click order, laid out with the menu's transform; a name in use fails with ButtonExists and changes nothing; the menu stays valid |
| Menus.Menu.AddTextTag | menus.py:50-60 | a fresh name registers a new text tag laid out with the menu's transform; a name in use fails with TextTagExists and changes nothing; the menu stays valid |
| Menus.Menu.OnClick | menus.py:66-77 | the click is divided into the grid once and every button is tested in insertion order; the fired names are distinct, and for positive multipliers they are exactly the registered buttons hit in integer pixels |
| Menus.Menu.Resize | menus.py:79-94 | the menu takes the new rectangle, its transform and background quad; every widget shows the new transform; the registries and footprint are unchanged |
| Menus.Menu.ResizeButtons | menus.py:90-91 | every button shows the menu's current transform; only the buttons' tags may change, so the menu object and its text tags are unchanged |
| Menus.Menu.ResizeTextTags | menus.py:93-94 | every text tag, and still every button, shows the menu's current transform |
| Managers.MenuManager.constructor | menus.py:186-188 | a new manager has no menus and no current menu |
| Managers.MenuManager.MakeMenu | menus.py:212-219 | a fresh name registers a new, valid, empty menu on the rectangle, and nothing else in the map changes; a name in use fails with MenuExists and changes nothing; the current menu is kept |
| Managers.MenuManager.ChangeMenu | menus.py:196-200 | a registered name makes that very menu current; an absent name fails with NoMenu and keeps the current menu; no menu changes |
| Managers.MenuManager.GetCurrentMenu | menus.py:202-204 | the current menu is none or one of the registered menus |
| Managers.MenuManager.GetMenu | menus.py:206-210 | succeeds exactly for a registered name, with the registered menu itself; otherwise fails with NoMenu |
| Managers.MenuManager.GetChangeMenu | menus.py:226-233 | succeeds exactly for a registered name, with a handler that targets that name; otherwise fails with NoMenu. The handler, the `ChangeHandler` datatype, stands for the closure `return_func` of menus.py:231-232 |
| Managers.MenuManager.RunHandler | menus.py:231-232 | running a handler switches to its target menu, as ChangeMenu does |
| Managers.MenuManager.OnClick | menus.py:221-224 | the current menu handles the click, with the same result as Menu.OnClick |
| Managers.MenuManager.Resize | menus.py:235-237 | every registered menu, current or not, takes the rectangle and is valid; the registries, footprints, map and current menu are unchanged |
| Managers.MenuManager.ResizeOne | menus.py:236-237 | one menu is moved and becomes valid; the menus moved before it keep the rectangle and the others keep their state |
| Scenario.Build | menus.py:242-246 | the demonstration's two menus have the rectangle (100, 100, 700, 700) and transform (7, 7, 100, 100), have no buttons or text tags, share no object, and "test" is current |
| Scenario.Populate | menus.py:247-250 | the buttons "he" and "hi" go in that order and the text tag "hl" follows, each with its box |
| Scenario.Setup | menus.py:242-250 | the demonstration's whole set-up, with the widgets added through GetMenu, leaves a valid manager |
| Scenario.ClickInHe | menus.py:255 | a click at (112, 112) fires "he" only |
| Scenario.ClickCorner | menus.py:255 | a click at (100, 100), the corner of "he", fires nothing |
| Scenario.ClickShared | menus.py:255 | a click at (275, 275), the corner shared by "he" and "hi", fires nothing |
| Scenario.ClickInHi | menus.py:255 | a click at (300, 300) fires "hi" only |
| Scenario.RunHiCallback | menus.py:248-249 | the "hi" callback, `change_menu("blank")`, makes "blank" current |
| Scenario.SwitchBack | menus.py:196-200 | changing to "test" by name makes it current again; the demonstration itself never switches back, so this step is added to show that switching menus changes no menu |
| Scenario.ClickOnBlank | menus.py:255 | on the empty menu "blank" no click fires anything |
| Scenario.AwayAndBack | menus.py:248-255 | after the "hi" callback a click fires nothing; after the added switch back, "he" fires again |
| Scenario.Demo | menus.py:240-255 | the click sequence fires "he", then "hi", then nothing on "blank", then, after the added switch back, "he" again on "test" |
| Scenario.ClickMovedHe | menus.py:255 | on "test" with transform (8, 8, 100, 100), a click at (112, 112) fires "he" only |
| Scenario.MoveAll | menus.py:262-264 | resizing a 900 x 900 window moves both menus to (100, 100, 800, 800), with that rectangle's transform and background, and both stay valid; "test" keeps its buttons and takes transform (8, 8, 100, 100) |
| Scenario.ResizeDemo | menus.py:240-264 | after the resize, a click at (112, 112) still fires "he" |

## Left out

- Rendering is not modelled: batches, ordered groups, label objects, colours, fonts, `Menu.draw`, `TextTag.draw` and `Menu_Manager.draw`. Only the geometry written into vertex lists and labels is kept: quads, label anchors and font sizes.
- The window, its events and `pyglet.app.run` are not modelled. `Scenario` calls the manager directly, as the mouse and resize handlers do.
- Click callbacks are arbitrary code, which is not modelled. `Menu.OnClick` returns the names of the fired buttons in firing order. The demonstration's "hi" callback is run by `Scenario` after the click, so a callback that re-enters the manager during a click is not captured.
- Pixel coordinates are unbounded integers. The click point and the font size are exact `real`s, not IEEE floating point.
- Menus.Menu.OnClick: the source divides by the multiplier and raises ZeroDivisionError when it is zero, that is for a width or height from 0 to 99 pixels (a negative size gives a non-zero multiplier). The model requires non-zero multipliers instead. It states the integer-pixel form of the hit test only for positive multipliers, because negative sizes flip the inequalities.
- Managers.MenuManager.OnClick: the source says it needs a current menu and does not check for one. The model requires a current menu that is valid and has non-zero multipliers.
- The manager's invariant keeps only each menu's registry and the separation of footprints. A menu changed through the reference that GetMenu returns may leave its own transform invariant. So each manager operation states each menu's validity itself, rather than the invariant carrying it.
- Menus.Menu.ResizeTextTags: the text tags are visited in an arbitrary order rather than in dictionary order. This cannot change the result, because each tag's resize touches only that tag.
- Managers.MenuManager.Resize: the menus are visited in an arbitrary order rather than in the dictionary's insertion order. This cannot change the result, because the menus share no object.
- Managers.ChangeHandler: the handler keeps only the target name, not the manager the source's closure captures; `RunHandler` is called on the manager instead.
- A Button holds its TextTag by composition, rather than inheriting from it.
- A vertex list is modelled as the eight-coordinate `Quad` datatype.
- `menu.py`, `canvas.py` and `menu_manager.py` are not part of this model.
- The first demonstration click (112, 112) maps to the virtual point (12/7, 12/7), inside "he".
- `change_menu` has no name that clears the current menu: every unknown name is an error, and once a menu is current some menu stays current.
