/**
 * The Blaze sprite: a scene-graph node with its own canvas, an ordered array
 * of child sprites and the attributes alpha, rotation, visible, x and y.
 *
 * `render` is given twice: as the ghost function RenderOf, which computes
 * what a call does to the document's canvases, to the shared `child`
 * variable and to the target element, and as the method Sprite.Render, which
 * does it step by step as the source does and is proved to match RenderOf.
 */
module Blaze {
  import opened Canvas

  /** The closure counter behind Blaze.unique. */
  class Counter {
    var id: int

    constructor (seed: int)
      ensures id == seed
    {
      id := seed;
    }

    /** Blaze.unique(): answers the counter, then increments it (id++). */
    method Unique() returns (r: int)
      modifies this
      ensures r == old(id) && id == old(id) + 1
    {
      r := id;
      id := id + 1;
    }
  }

  /** What a call of render evaluates to: false, a canvas, or undefined. */
  datatype Value = False | Surface(handle: Handle) | Undefined

  /** How a call completes: it returns a value, or a host fault propagates. */
  datatype Completion = Normal(value: Value) | Thrown

  /** The global scope render works in: the implicit global `child` that
      every level of the recursion shares, and the document. */
  class Window {
    var child: Sprite?
    const document: Document

    constructor (document: Document)
      ensures this.document == document && child == null
    {
      this.document := document;
      child := null;
    }
  }

  /** The attribute values a new sprite inherits from the prototype. */
  ghost predicate Defaults(s: Sprite)
    reads s
  {
    s.children == [] && s.alpha == 1.0 && s.rotation == 0.0 && s.visible && s.x == 0.0 && s.y == 0.0
  }

  class Sprite {
    const id: int
    /** this.canvas; this.graphics is that canvas's (only) 2D context. */
    const canvas: Handle
    var children: seq<Sprite>
    var alpha: real
    var rotation: real
    var visible: bool
    var x: real
    var y: real

    constructor (id: int, canvas: Handle)
      ensures this.id == id && this.canvas == canvas && Defaults(this)
    {
      this.id := id;
      this.canvas := canvas;
      children := [];
      alpha := 1.0;
      rotation := 0.0;
      visible := true;
      x := 0.0;
      y := 0.0;
    }

    /** init: takes the next unique id, then creates the sprite's canvas; a
        host fault while creating the canvas propagates, after the id was
        taken. */
    static method Init(ids: Counter, doc: Document) returns (r: Option<Sprite>)
      modifies ids, doc
      ensures ids.id == old(ids.id) + 1
      ensures old(|doc.contexts|) < doc.limit ==>
        r.Some? && fresh(r.value) && r.value.id == old(ids.id) && r.value.canvas == old(|doc.contexts|) &&
        Defaults(r.value) && doc.State() == Allocate(old(doc.State()))
      ensures old(|doc.contexts|) >= doc.limit ==> r == None && doc.State() == old(doc.State())
    {
      var id := ids.Unique();
      var canvas := doc.CreateCanvas();
      if canvas.None? {
        return None;
      }
      var s := new Sprite(id, canvas.value);
      r := Some(s);
    }

    /** add: appends a child and answers this sprite, for chaining. */
    method Add(sprite: Sprite) returns (r: Sprite)
      modifies this`children
      ensures children == old(children) + [sprite] && r == this
    {
      children := children + [sprite];
      r := this;
    }

    /** render(element): see RenderOf. The ghost g is the sprite graph this
        sprite belongs to, and rank witnesses that it has no cycle. */
    method Render(element: Element?, win: Window, ghost g: Graph, ghost rank: map<Sprite, nat>) returns (r: Completion)
      requires this in g && Describes(g) && Ranked(g, rank)
      requires Backed(g, win.document.State())
      modifies win, win.document, element
      ensures var o := RenderOf(this, element != null, g, rank, old(win.document.State()), old(win.child));
        r == o.completion && win.document.State() == o.surfaces && win.child == o.child &&
        (element != null ==> element.appended == old(element.appended) + o.attached)
      decreases rank[this], 2
    {
      if !visible || alpha == 0.0 {
        assert element != null ==> element.appended + [] == element.appended;
        return Normal(False);
      }
      var doc := win.document;
      var oldAlpha := doc.GlobalAlpha(canvas);
      r := Compose(win, g, rank);
      if r.Normal? && element != null {
        var wrap := doc.CreateCanvas();
        if wrap.None? {
          r := Thrown;
        } else {
          doc.Perform(wrap.value, SetAlpha(alpha));
          doc.Perform(wrap.value, DrawImage(r.value.handle, x, y));
          element.AppendChild(wrap.value);
          r := Normal(Undefined);
        }
      }
      // finally
      doc.Perform(canvas, SetAlpha(oldAlpha));
      assert element != null ==> old(element.appended) + [] == old(element.appended);
    }

    /** The composition render makes inside its try block: see Body. */
    method Compose(win: Window, ghost g: Graph, ghost rank: map<Sprite, nat>) returns (r: Completion)
      requires this in g && Describes(g) && Ranked(g, rank) && !Skipped(g[this])
      requires Backed(g, win.document.State())
      modifies win, win.document
      ensures var o := Body(this, g, rank, old(win.document.State()), old(win.child));
        r == o.completion && win.document.State() == o.surfaces && win.child == o.child
      decreases rank[this], 1
    {
      r := Normal(Surface(canvas));
      if |children| > 0 {
        var doc := win.document;
        var scratch := doc.CreateCanvas();
        if scratch.None? {
          return Thrown;
        }
        var graphics := scratch.value;
        doc.Perform(graphics, DrawImage(canvas, x, y));
        ghost var s1 := doc.State();
        ghost var target := ComposeFrom(this, 0, graphics, g, rank, s1, win.child);
        var i := 0;
        while i < |children|
          invariant 0 <= i <= |children|
          invariant Backed(g, doc.State()) && graphics < |doc.contexts|
          invariant doc.limit == s1.limit && |s1.contexts| <= |doc.contexts|
          invariant ComposeFrom(this, i, graphics, g, rank, doc.State(), win.child) == target
        {
          var rendered := CompositeChild(i, graphics, win, g, rank);
          if rendered.Thrown? {
            return Thrown;
          }
          i := i + 1;
        }
        r := Normal(Surface(graphics));
      }
    }

    /** One turn of the loop over the children: assigns the shared `child`,
        renders it, and when that gives a canvas composites it with the
        attributes read back from the shared `child`. See Step. */
    method CompositeChild(i: nat, graphics: Handle, win: Window, ghost g: Graph, ghost rank: map<Sprite, nat>)
      returns (rendered: Completion)
      requires this in g && Describes(g) && Ranked(g, rank) && !Skipped(g[this]) && i < |children|
      requires Backed(g, win.document.State()) && graphics < |win.document.contexts|
      modifies win, win.document
      ensures var o := Step(this, i, graphics, g, rank, old(win.document.State()));
        rendered == o.completion && win.document.State() == o.surfaces && win.child == o.child
      decreases rank[this], 0
    {
      var doc := win.document;
      win.child := children[i];
      rendered := win.child.Render(null, win, g, rank);
      if rendered.Normal? && rendered.value.Surface? {
        var k := win.child;
        assert g[k] == Attrs(k.canvas, k.children, k.alpha, k.rotation, k.visible, k.x, k.y);
        doc.Perform(graphics, Save);
        doc.Perform(graphics, SetAlpha(k.alpha));
        doc.Perform(graphics, Translate(k.x, k.y));
        doc.Perform(graphics, Rotate(k.rotation));
        doc.Perform(graphics, DrawImage(rendered.value.handle, k.x, k.y));
        doc.Perform(graphics, Restore);
      }
    }
  }

  /** The attributes of one sprite that render reads, as a value. */
  datatype Attrs = Attrs(canvas: Handle, children: seq<Sprite>, alpha: real, rotation: real,
                         visible: bool, x: real, y: real)

  /** The sprite graph as a value: the attributes of every sprite in it. */
  type Graph = map<Sprite, Attrs>

  /** g holds the attributes that the sprites in it have in the heap now. */
  ghost predicate Describes(g: Graph)
    reads g.Keys
  {
    forall n :: n in g ==> g[n] == Attrs(n.canvas, n.children, n.alpha, n.rotation, n.visible, n.x, n.y)
  }

  /** The gate at the top of render: an invisible or fully transparent sprite
      renders nothing. */
  predicate Skipped(a: Attrs) {
    !a.visible || a.alpha == 0.0
  }

  /** Every child of a sprite of g that passes the gate is in g and ranks
      below its parent, so render meets no cycle. The children of a skipped
      sprite are never visited: they need not be in g, and cycles through or
      below a skipped sprite are allowed. */
  ghost predicate Ranked(g: Graph, rank: map<Sprite, nat>) {
    g.Keys <= rank.Keys &&
    forall n, i :: n in g && !Skipped(g[n]) && 0 <= i < |g[n].children| ==>
      g[n].children[i] in g && rank[g[n].children[i]] < rank[n]
  }

  /** Every sprite's canvas exists in the document. */
  ghost predicate Backed(g: Graph, s: Surfaces) {
    forall n :: n in g ==> g[n].canvas < |s.contexts|
  }

  /** The result of a call of render: how it completed, the document's canvases
      afterwards, the value of the shared `child` afterwards, and the canvases
      appended to the target element. */
  datatype Outcome = Outcome(completion: Completion, surfaces: Surfaces, child: Sprite?, attached: seq<Handle>)

  /** The save / alpha / translate / rotate / drawImage / restore bracket that
      composites image onto the scratch canvas h, with the attributes k read
      from the shared `child`. */
  function Composite(s: Surfaces, h: Handle, k: Attrs, image: Handle): (t: Surfaces)
    requires h < |s.contexts|
    ensures t.limit == s.limit && |t.contexts| == |s.contexts|
    ensures forall j :: 0 <= j < |s.contexts| && j != h ==> t.contexts[j] == s.contexts[j]
  {
    var s1 := Issue(s, h, Save);
    var s2 := Issue(s1, h, SetAlpha(k.alpha));
    var s3 := Issue(s2, h, Translate(k.x, k.y));
    var s4 := Issue(s3, h, Rotate(k.rotation));
    var s5 := Issue(s4, h, DrawImage(image, k.x, k.y));
    Issue(s5, h, Restore)
  }

  /** render(element) on sprite n of the graph g, from the document state s with
      the shared `child` holding cur; withElement says whether a target element
      is given. */
  ghost function RenderOf(n: Sprite, withElement: bool, g: Graph, rank: map<Sprite, nat>, s: Surfaces, cur: Sprite?): (o: Outcome)
    requires Ranked(g, rank) && n in g && Backed(g, s)
    ensures o.surfaces.limit == s.limit && |s.contexts| <= |o.surfaces.contexts|
    ensures o.child == cur || (o.child != null && o.child in g)
    ensures !withElement ==> o.attached == []
    decreases rank[n], 2, 0
  {
    if Skipped(g[n]) then Outcome(Normal(False), s, cur, [])
    else Finish(g[n], withElement, s, Body(n, g, rank, s, cur))
  }

  /** The part of render inside try that makes the composition: the sprite's
      own canvas for a sprite without children, otherwise a scratch canvas
      with the sprite's canvas and every rendered child drawn onto it. */
  ghost function Body(n: Sprite, g: Graph, rank: map<Sprite, nat>, s: Surfaces, cur: Sprite?): (o: Outcome)
    requires Ranked(g, rank) && n in g && !Skipped(g[n]) && Backed(g, s)
    ensures o.surfaces.limit == s.limit && |s.contexts| <= |o.surfaces.contexts|
    ensures o.child == cur || (o.child != null && o.child in g)
    ensures o.completion.Normal? ==> o.completion.value.Surface?
    ensures o.attached == []
    decreases rank[n], 1, 0
  {
    var a := g[n];
    if |a.children| == 0 then Outcome(Normal(Surface(a.canvas)), s, cur, [])
    else if s.limit <= |s.contexts| then Outcome(Thrown, s, cur, [])
    else
      var h := |s.contexts|;
      var c := ComposeFrom(n, 0, h, g, rank, Issue(Allocate(s), h, DrawImage(a.canvas, a.x, a.y)), cur);
      if c.completion.Thrown? then c else Outcome(Normal(Surface(h)), c.surfaces, c.child, [])
  }

  /** The rest of render once the composition is made: the element branch,
      then the finally block, which assigns the sprite's context the
      globalAlpha it had on entry (s is the document state on entry). */
  ghost function Finish(a: Attrs, withElement: bool, s: Surfaces, body: Outcome): (o: Outcome)
    requires a.canvas < |s.contexts| <= |body.surfaces.contexts|
    requires body.completion.Normal? ==> body.completion.value.Surface?
    ensures o.surfaces.limit == body.surfaces.limit && |body.surfaces.contexts| <= |o.surfaces.contexts|
    ensures o.child == body.child
    ensures !withElement ==> o.attached == body.attached
  {
    var done := if body.completion.Thrown? || !withElement then body else Attach(a, body);
    Outcome(done.completion, Issue(done.surfaces, a.canvas, SetAlpha(s.contexts[a.canvas].globalAlpha)),
            done.child, done.attached)
  }

  /** The loop over n's children from index i on, compositing onto the scratch
      canvas h; it stops at the first child whose rendering throws. */
  ghost function ComposeFrom(n: Sprite, i: nat, h: Handle, g: Graph, rank: map<Sprite, nat>, s: Surfaces, cur: Sprite?): (o: Outcome)
    requires Ranked(g, rank) && n in g && !Skipped(g[n]) && i <= |g[n].children| && Backed(g, s) && h < |s.contexts|
    ensures o.surfaces.limit == s.limit && |s.contexts| <= |o.surfaces.contexts|
    ensures o.child == cur || (o.child != null && o.child in g)
    ensures o.attached == []
    decreases rank[n], 0, |g[n].children| - i
  {
    if i == |g[n].children| then Outcome(Normal(Surface(h)), s, cur, [])
    else
      var t := Step(n, i, h, g, rank, s);
      if t.completion.Thrown? then t else ComposeFrom(n, i + 1, h, g, rank, t.surfaces, t.child)
  }

  /** One turn of the loop: the shared `child` is set to child i, which is
      rendered without an element; a canvas it gives is composited onto h with
      the attributes of whatever sprite the shared `child` holds afterwards. */
  ghost function Step(n: Sprite, i: nat, h: Handle, g: Graph, rank: map<Sprite, nat>, s: Surfaces): (o: Outcome)
    requires Ranked(g, rank) && n in g && !Skipped(g[n]) && i < |g[n].children| && Backed(g, s) && h < |s.contexts|
    ensures o.surfaces.limit == s.limit && |s.contexts| <= |o.surfaces.contexts|
    ensures o.child != null && o.child in g
    ensures o.attached == []
    decreases rank[n], 0, |g[n].children| - i - 1
  {
    var c := g[n].children[i];
    var r := RenderOf(c, false, g, rank, s, c);
    if r.completion.Normal? && r.completion.value.Surface? then
      r.(surfaces := Composite(r.surfaces, h, g[r.child], r.completion.value.handle))
    else r
  }

  /** The element branch: wraps the composition in a new canvas drawn with the
      sprite's alpha at the sprite's offset, to be appended to the element. */
  function Attach(a: Attrs, body: Outcome): (o: Outcome)
    requires body.completion.Normal? && body.completion.value.Surface?
    ensures o.surfaces.limit == body.surfaces.limit && |body.surfaces.contexts| <= |o.surfaces.contexts|
    ensures o.child == body.child
  {
    var s := body.surfaces;
    if s.limit <= |s.contexts| then Outcome(Thrown, s, body.child, [])
    else
      var w := |s.contexts|;
      var t := Issue(Issue(Allocate(s), w, SetAlpha(a.alpha)), w, DrawImage(body.completion.value.handle, a.x, a.y));
      Outcome(Normal(Undefined), t, body.child, [w])
  }
}
