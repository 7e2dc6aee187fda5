/**
 * The browser's <canvas> element and its 2D rendering context, reduced to the calls the
 * mockup editor makes. A canvas records every call in `log`; `Exec` is a reference
 * semantics for such a log: it tracks the drawing state (translation, fill style, clip
 * region, save stack, current path) and returns what gets painted, in canvas coordinates.
 */
module Canvas2D {

  /** A positive pixel count. */
  type Pixels = n: int | n > 0 witness 1

  /** A decoded screenshot (an HTMLImageElement); only its natural size matters here. */
  datatype Image = Image(width: Pixels, height: Pixels)

  /** One call on the canvas or its 2D context. */
  datatype Cmd =
    | SetSize(width: int, height: int)   // canvas.width / canvas.height assignment
    | ClearRect(x: real, y: real, w: real, h: real)
    | SetFillGradient(x0: real, y0: real, x1: real, y1: real, stop0: string, stop1: string)
    | SetFillColor(color: string)
    | FillRect(x: real, y: real, w: real, h: real)
    | Save
    | Restore
    | Translate(dx: real, dy: real)
    | BeginPath
    | MoveTo(x: real, y: real)
    | ArcTo(x1: real, y1: real, x2: real, y2: real, radius: real)
    | ClosePath
    | Clip
    | Fill
    | DrawImage(image: Image, dx: real, dy: real, dw: real, dh: real)

  /** A canvas element whose 2D context records the calls made on it. */
  class Canvas {
    var width: int
    var height: int
    /** Whether getContext('2d') yields a context (it is null once another kind was taken). */
    const hasContext2D: bool
    var log: seq<Cmd>

    /** A new canvas has the HTML default size of 300 by 150 and nothing drawn. */
    constructor (hasContext2D: bool)
      ensures this.hasContext2D == hasContext2D
      ensures width == 300 && height == 150 && log == []
    {
      this.hasContext2D := hasContext2D;
      width := 300;
      height := 150;
      log := [];
    }

    /** Assigns canvas.width and canvas.height; the assignment resets the context. */
    method Resize(w: int, h: int)
      modifies this
      ensures width == w && height == h
      ensures log == old(log) + [SetSize(w, h)]
    {
      width := w;
      height := h;
      log := log + [SetSize(w, h)];
    }

    /** One call on the 2D context. */
    method Issue(c: Cmd)
      requires !c.SetSize?
      modifies this`log
      ensures log == old(log) + [c]
    {
      log := log + [c];
    }
  }

  /** The fill style of the context. */
  datatype Style =
    | Color(css: string)
    | LinearGradient(x0: real, y0: real, x1: real, y1: real, stop0: string, stop1: string)

  /** What save() pushes: the translation, the fill style and the clip region. */
  datatype Saved = Saved(tx: real, ty: real, fill: Style, clip: seq<seq<Cmd>>)

  /**
   * The drawing state. The transform is a translation (tx, ty): the only transform the
   * editor applies. The clip region is the intersection of the listed paths, and paths are
   * kept in canvas coordinates, as the context transforms each point when it is added.
   */
  datatype GState = GState(tx: real, ty: real, fill: Style, clip: seq<seq<Cmd>>, saved: seq<Saved>, path: seq<Cmd>)

  /** The state of a freshly sized context: identity transform, black fill, no clip. */
  const Fresh := GState(0.0, 0.0, Color("#000000"), [], [], [])

  /** What a call paints, in canvas coordinates, together with the clip that bounds it. */
  datatype Paint =
    | Cleared(x: real, y: real, w: real, h: real)
    | FilledRect(style: Style, x: real, y: real, w: real, h: real, within: seq<seq<Cmd>>)
    | FilledPath(style: Style, path: seq<Cmd>, within: seq<seq<Cmd>>)
    | DrewImage(image: Image, x: real, y: real, w: real, h: real, within: seq<seq<Cmd>>)

  /** A path segment: the calls that extend the current path. */
  predicate IsSegment(c: Cmd)
  {
    c.MoveTo? || c.ArcTo? || c.ClosePath?
  }

  /** A path segment moved by (dx, dy); the radius of an arc is unchanged. */
  function Translated(c: Cmd, dx: real, dy: real): Cmd
  {
    match c
    case MoveTo(x, y) => MoveTo(x + dx, y + dy)
    case ArcTo(x1, y1, x2, y2, r) => ArcTo(x1 + dx, y1 + dy, x2 + dx, y2 + dy, r)
    case _ => c
  }

  function TranslatedPath(cmds: seq<Cmd>, dx: real, dy: real): seq<Cmd>
    decreases |cmds|
  {
    if cmds == [] then [] else [Translated(cmds[0], dx, dy)] + TranslatedPath(cmds[1..], dx, dy)
  }

  /** The effect of one call. */
  function Step(g: GState, c: Cmd): (GState, seq<Paint>)
  {
    match c
    case SetSize(w, h) => (Fresh, [Cleared(0.0, 0.0, w as real, h as real)])
    case ClearRect(x, y, w, h) => (g, [Cleared(x + g.tx, y + g.ty, w, h)])
    case SetFillGradient(x0, y0, x1, y1, s0, s1) => (g.(fill := LinearGradient(x0, y0, x1, y1, s0, s1)), [])
    case SetFillColor(css) => (g.(fill := Color(css)), [])
    case FillRect(x, y, w, h) => (g, [FilledRect(g.fill, x + g.tx, y + g.ty, w, h, g.clip)])
    case Save => (g.(saved := g.saved + [Saved(g.tx, g.ty, g.fill, g.clip)]), [])
    case Restore =>
      if g.saved == [] then (g, [])
      else
        var top := g.saved[|g.saved| - 1];
        (g.(tx := top.tx, ty := top.ty, fill := top.fill, clip := top.clip, saved := g.saved[..|g.saved| - 1]), [])
    case Translate(dx, dy) => (g.(tx := g.tx + dx, ty := g.ty + dy), [])
    case BeginPath => (g.(path := []), [])
    case MoveTo(_, _) => (g.(path := g.path + [Translated(c, g.tx, g.ty)]), [])
    case ArcTo(_, _, _, _, _) => (g.(path := g.path + [Translated(c, g.tx, g.ty)]), [])
    case ClosePath => (g.(path := g.path + [ClosePath]), [])
    case Clip => (g.(clip := g.clip + [g.path]), [])
    case Fill => (g, [FilledPath(g.fill, g.path, g.clip)])
    case DrawImage(img, x, y, w, h) => (g, [DrewImage(img, x + g.tx, y + g.ty, w, h, g.clip)])
  }

  /** The effect of a sequence of calls: the final state and everything painted, in order. */
  function Exec(g: GState, cmds: seq<Cmd>): (GState, seq<Paint>)
    decreases |cmds|
  {
    if cmds == [] then (g, [])
    else
      var (g1, p1) := Step(g, cmds[0]);
      var (g2, p2) := Exec(g1, cmds[1..]);
      (g2, p1 + p2)
  }

  /** Running two logs one after the other is running their concatenation. */
  lemma {:induction false} ExecAppend(g: GState, a: seq<Cmd>, b: seq<Cmd>)
    ensures Exec(g, a + b).0 == Exec(Exec(g, a).0, b).0
    ensures Exec(g, a + b).1 == Exec(g, a).1 + Exec(Exec(g, a).0, b).1
    decreases |a|
  {
    if a == [] {
      assert a + b == b;
    } else {
      var g1 := Step(g, a[0]).0;
      var p1 := Step(g, a[0]).1;
      assert (a + b)[0] == a[0];
      assert (a + b)[1..] == a[1..] + b;
      assert Exec(g, a + b) == (Exec(g1, a[1..] + b).0, p1 + Exec(g1, a[1..] + b).1);
      assert Exec(g, a) == (Exec(g1, a[1..]).0, p1 + Exec(g1, a[1..]).1);
      ExecAppend(g1, a[1..], b);
    }
  }

  /** Running `a` and then `b`, given what each does. */
  lemma ExecThen(g: GState, a: seq<Cmd>, b: seq<Cmd>, ga: GState, pa: seq<Paint>, gb: GState, pb: seq<Paint>)
    requires Exec(g, a) == (ga, pa) && Exec(ga, b) == (gb, pb)
    ensures Exec(g, a + b) == (gb, pa + pb)
  {
    ExecAppend(g, a, b);
  }

  /** A single call, as a log. */
  lemma ExecSingle(g: GState, c: Cmd)
    ensures Exec(g, [c]) == Step(g, c)
  {
    assert [c][1..] == [];
    assert Exec(Step(g, c).0, []) == (Step(g, c).0, []);
    assert Step(g, c).1 + [] == Step(g, c).1;
  }

  /** Path segments only extend the current path, moved by the translation, and paint nothing. */
  lemma {:induction false} ExecSegments(g: GState, cmds: seq<Cmd>)
    requires forall i :: 0 <= i < |cmds| ==> IsSegment(cmds[i])
    ensures Exec(g, cmds) == (g.(path := g.path + TranslatedPath(cmds, g.tx, g.ty)), [])
    decreases |cmds|
  {
    if cmds == [] {
      assert g.path + [] == g.path;
    } else {
      var g1 := Step(g, cmds[0]).0;
      assert Step(g, cmds[0]) == (g.(path := g.path + [Translated(cmds[0], g.tx, g.ty)]), []);
      ExecSegments(g1, cmds[1..]);
      assert Exec(g, cmds) == (Exec(g1, cmds[1..]).0, [] + Exec(g1, cmds[1..]).1);
      assert g.path + [Translated(cmds[0], g.tx, g.ty)] + TranslatedPath(cmds[1..], g.tx, g.ty)
        == g.path + TranslatedPath(cmds, g.tx, g.ty);
      assert Exec(g1, cmds[1..]).1 == [];
      assert Exec(g1, cmds[1..]).0 == g.(path := g.path + TranslatedPath(cmds, g.tx, g.ty));
      assert Exec(g, cmds).1 == [];
    }
  }

  /** The number of occurrences of a call in a log. */
  function Count(cmds: seq<Cmd>, c: Cmd): nat
  {
    multiset(cmds)[c]
  }
}
