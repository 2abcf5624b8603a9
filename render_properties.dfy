/**
 * What a call of render promises, proved about RenderOf and the functions it
 * is built from: which canvases it may touch and how, what it answers, what
 * it leaves on the scratch canvas, when it can fail, and which sprite the
 * shared `child` variable holds when a parent reads a child's attributes.
 */
module RenderProperties {
  import opened Canvas
  import opened Blaze

  /** The canvases that belong to the sprites of g. */
  ghost function Canvases(g: Graph): set<Handle> {
    set n | n in g :: g[n].canvas
  }

  /** The canvases of the sprites of a graph backed by s all exist in s. */
  lemma CanvasesBacked(g: Graph, s: Surfaces)
    requires Backed(g, s)
    ensures forall j :: j in Canvases(g) ==> j < |s.contexts|
  {
  }

  /** What render may do to a sprite's own context: assign globalAlpha back to
      values it held, so the alpha and the save stack end as they began and
      the log grows by alpha assignments only. */
  ghost predicate Restored(c: Context, d: Context) {
    d.globalAlpha == c.globalAlpha && d.saved == c.saved && c.log <= d.log &&
    forall k :: |c.log| <= k < |d.log| ==> d.log[k].SetAlpha?
  }

  /** The operations that composite one child onto a scratch canvas, as one
      sequence: the reference definition CompositeIsBracket proves Composite
      equal to. */
  function Bracket(k: Attrs, image: Handle): seq<Op> {
    [Save, SetAlpha(k.alpha), Translate(k.x, k.y), Rotate(k.rotation), DrawImage(image, k.x, k.y), Restore]
  }

  /** ops is a run of whole brackets: save, an alpha, a translation, a
      rotation, one drawImage at the offset of the translation, restore. */
  predicate Brackets(ops: seq<Op>)
    decreases |ops|
  {
    ops == [] ||
    (|ops| >= 6 && ops[0] == Save && ops[1].SetAlpha? && ops[3].Rotate? && ops[5] == Restore &&
     ops[4].DrawImage? && ops[2] == Translate(ops[4].dx, ops[4].dy) && Brackets(ops[6..]))
  }

  /** What the loop over the children does to the scratch canvas: whole
      brackets are appended, and the alpha and the save stack end as they
      began. */
  ghost predicate Bracketed(c: Context, d: Context) {
    d.globalAlpha == c.globalAlpha && d.saved == c.saved && c.log <= d.log && Brackets(d.log[|c.log|..])
  }

  /** From s to t, every canvas that existed in s other than scratch is
      either a sprite's canvas whose context was Restored, or untouched. */
  ghost predicate Framed(g: Graph, s: Surfaces, t: Surfaces, scratch: int) {
    |s.contexts| <= |t.contexts| &&
    forall j :: 0 <= j < |s.contexts| && j != scratch ==>
      if j in Canvases(g) then Restored(s.contexts[j], t.contexts[j]) else t.contexts[j] == s.contexts[j]
  }

  lemma {:induction false} BracketsAppend(a: seq<Op>, b: seq<Op>)
    requires Brackets(a) && Brackets(b)
    ensures Brackets(a + b)
    decreases |a|
  {
    if a != [] {
      assert (a + b)[6..] == a[6..] + b;
      BracketsAppend(a[6..], b);
    } else {
      assert a + b == b;
    }
  }

  lemma RestoredTrans(c: Context, d: Context, e: Context)
    requires Restored(c, d) && Restored(d, e)
    ensures Restored(c, e)
  {
    forall k | |c.log| <= k < |e.log|
      ensures e.log[k].SetAlpha?
    {
      if k < |d.log| {
        assert e.log[k] == d.log[k];
      }
    }
  }

  lemma BracketedTrans(c: Context, d: Context, e: Context)
    requires Bracketed(c, d) && Bracketed(d, e)
    ensures Bracketed(c, e)
  {
    assert e.log[|c.log|..] == d.log[|c.log|..] + e.log[|d.log|..];
    BracketsAppend(d.log[|c.log|..], e.log[|d.log|..]);
  }

  lemma FramedTrans(g: Graph, s: Surfaces, t: Surfaces, u: Surfaces, x: int, y: int)
    requires Framed(g, s, t, x) && Framed(g, t, u, y)
    requires y == x || !(0 <= y < |s.contexts|)
    ensures Framed(g, s, u, x)
  {
    forall j | 0 <= j < |s.contexts| && j != x && j in Canvases(g)
      ensures Restored(s.contexts[j], u.contexts[j])
    {
      RestoredTrans(s.contexts[j], t.contexts[j], u.contexts[j]);
    }
  }

  /** The bracket Composite issues is Bracket, and it leaves the alpha and the
      save stack of the scratch context as they were. */
  lemma CompositeIsBracket(s: Surfaces, h: Handle, k: Attrs, image: Handle)
    requires h < |s.contexts|
    ensures var c := s.contexts[h];
      Composite(s, h, k, image) == s.(contexts := s.contexts[h := Context(c.globalAlpha, c.saved, c.log + Bracket(k, image))])
  {
    var c := s.contexts[h];
    var pushed := c.saved + [c.globalAlpha];
    assert pushed[..|pushed| - 1] == c.saved;
    assert c.log + Bracket(k, image) ==
      c.log + [Save] + [SetAlpha(k.alpha)] + [Translate(k.x, k.y)] + [Rotate(k.rotation)] + [DrawImage(image, k.x, k.y)] + [Restore];
  }

  /** The frame of Finish: the element branch only touches the new wrap
      canvas and the finally block only the sprite's own canvas, whose alpha
      it assigns back; every other canvas is as the body left it. */
  lemma FinishFrame(g: Graph, n: Sprite, withElement: bool, s: Surfaces, body: Outcome)
    requires n in g && g[n].canvas < |s.contexts| <= |body.surfaces.contexts|
    requires body.completion.Normal? ==> body.completion.value.Surface?
    requires Framed(g, s, body.surfaces, -1)
    requires body.completion.Thrown? ==> s.limit <= |body.surfaces.contexts|
    requires body.surfaces.limit == s.limit
    ensures var o := Finish(g[n], withElement, s, body);
      Framed(g, s, o.surfaces, -1) && (o.completion.Thrown? ==> s.limit <= |o.surfaces.contexts|) &&
      forall j :: 0 <= j < |body.surfaces.contexts| && j != g[n].canvas ==> o.surfaces.contexts[j] == body.surfaces.contexts[j]
  {
    var a := g[n];
    var done := if body.completion.Thrown? || !withElement then body else Attach(a, body);
    assert forall j :: 0 <= j < |body.surfaces.contexts| ==> done.surfaces.contexts[j] == body.surfaces.contexts[j];
    var o := Finish(a, withElement, s, body);
    assert a.canvas in Canvases(g);
    forall j | 0 <= j < |s.contexts| && j in Canvases(g)
      ensures Restored(s.contexts[j], o.surfaces.contexts[j])
    {
      if j == a.canvas {
        RestoredTrans(s.contexts[j], done.surfaces.contexts[j], o.surfaces.contexts[j]);
      }
    }
  }

  /** render touches no canvas that existed before it other than the canvases
      of sprites, and each of those ends with the globalAlpha and save stack
      it had, having only had its alpha assigned back; render throws only
      once the document holds as many canvases as the host allows. */
  lemma {:induction false} RenderOfFrame(n: Sprite, withElement: bool, g: Graph, rank: map<Sprite, nat>, s: Surfaces, cur: Sprite?)
    requires Ranked(g, rank) && n in g && Backed(g, s)
    ensures var o := RenderOf(n, withElement, g, rank, s, cur);
      Framed(g, s, o.surfaces, -1) && (o.completion.Thrown? ==> s.limit <= |o.surfaces.contexts|)
    decreases rank[n], 2, 0
  {
    if !Skipped(g[n]) {
      var b := Body(n, g, rank, s, cur);
      BodyFrame(n, g, rank, s, cur);
      FinishFrame(g, n, withElement, s, b);
    }
  }

  /** The same for the composition inside the try block. */
  lemma {:induction false} BodyFrame(n: Sprite, g: Graph, rank: map<Sprite, nat>, s: Surfaces, cur: Sprite?)
    requires Ranked(g, rank) && n in g && !Skipped(g[n]) && Backed(g, s)
    ensures var o := Body(n, g, rank, s, cur);
      Framed(g, s, o.surfaces, -1) && (o.completion.Thrown? ==> s.limit <= |o.surfaces.contexts|)
    decreases rank[n], 1, 0
  {
    var a := g[n];
    if |a.children| > 0 && |s.contexts| < s.limit {
      var h := |s.contexts|;
      var s1 := Issue(Allocate(s), h, DrawImage(a.canvas, a.x, a.y));
      CanvasesBacked(g, s);
      assert Framed(g, s, s1, -1);
      ComposeFromFrame(n, 0, h, g, rank, s1, cur);
      var c := ComposeFrom(n, 0, h, g, rank, s1, cur);
      FramedTrans(g, s, s1, c.surfaces, -1, h);
    }
  }

  /** The loop over the children from index i on: besides the frame, the
      scratch canvas h only gains whole brackets. */
  lemma {:induction false} ComposeFromFrame(n: Sprite, i: nat, h: Handle, g: Graph, rank: map<Sprite, nat>, s: Surfaces, cur: Sprite?)
    requires Ranked(g, rank) && n in g && !Skipped(g[n]) && i <= |g[n].children| && Backed(g, s) && h < |s.contexts|
    requires h !in Canvases(g)
    ensures var o := ComposeFrom(n, i, h, g, rank, s, cur);
      Framed(g, s, o.surfaces, h) && Bracketed(s.contexts[h], o.surfaces.contexts[h]) &&
      (o.completion.Thrown? ==> s.limit <= |o.surfaces.contexts|)
    decreases rank[n], 0, |g[n].children| - i
  {
    if i == |g[n].children| {
      assert s.contexts[h].log[|s.contexts[h].log|..] == [];
    } else {
      var t := Step(n, i, h, g, rank, s);
      StepFrame(n, i, h, g, rank, s);
      if t.completion.Normal? {
        ComposeFromFrame(n, i + 1, h, g, rank, t.surfaces, t.child);
        var o := ComposeFrom(n, i + 1, h, g, rank, t.surfaces, t.child);
        FramedTrans(g, s, t.surfaces, o.surfaces, h, h);
        BracketedTrans(s.contexts[h], t.surfaces.contexts[h], o.surfaces.contexts[h]);
      }
    }
  }

  /** One turn of the loop: the child's render keeps the frame, and the
      composite appends at most one bracket (six operations) to h. */
  lemma {:induction false} StepFrame(n: Sprite, i: nat, h: Handle, g: Graph, rank: map<Sprite, nat>, s: Surfaces)
    requires Ranked(g, rank) && n in g && !Skipped(g[n]) && i < |g[n].children| && Backed(g, s) && h < |s.contexts|
    requires h !in Canvases(g)
    ensures var o := Step(n, i, h, g, rank, s);
      Framed(g, s, o.surfaces, h) && Bracketed(s.contexts[h], o.surfaces.contexts[h]) &&
      (o.completion.Thrown? ==> s.limit <= |o.surfaces.contexts|) &&
      |o.surfaces.contexts[h].log| <= |s.contexts[h].log| + 6
    decreases rank[n], 0, |g[n].children| - i - 1
  {
    var c := g[n].children[i];
    var r := RenderOf(c, false, g, rank, s, c);
    RenderOfFrame(c, false, g, rank, s, c);
    assert r.surfaces.contexts[h] == s.contexts[h];
    if r.completion.Normal? && r.completion.value.Surface? {
      var k := g[r.child];
      var image := r.completion.value.handle;
      CompositeIsBracket(r.surfaces, h, k, image);
      var t := Composite(r.surfaces, h, k, image);
      var b := Bracket(k, image);
      assert t.contexts[h].log[|s.contexts[h].log|..] == b;
      assert b[6..] == [];
      assert Framed(g, r.surfaces, t, h);
      FramedTrans(g, s, r.surfaces, t, h, h);
    } else {
      assert s.contexts[h].log[|s.contexts[h].log|..] == [];
    }
  }

  /** The sprite the shared `child` variable holds when a render of n that
      got past the visibility gate returns: the last child it visited, at
      whatever depth that is. */
  ghost function LastVisited(g: Graph, rank: map<Sprite, nat>, n: Sprite): (m: Sprite)
    requires Ranked(g, rank) && n in g
    ensures m in g && rank[m] <= rank[n]
    ensures m == n <==> Skipped(g[n]) || |g[n].children| == 0
    decreases rank[n]
  {
    var ch := g[n].children;
    if Skipped(g[n]) || |ch| == 0 then n else LastVisited(g, rank, ch[|ch| - 1])
  }

  /** After a render of n that completes normally, the shared `child` holds
      what it held before when n was skipped or has no children, and
      otherwise the last sprite visited below n. */
  lemma {:induction false} RenderOfChild(n: Sprite, withElement: bool, g: Graph, rank: map<Sprite, nat>, s: Surfaces, cur: Sprite?)
    requires Ranked(g, rank) && n in g && Backed(g, s)
    ensures var o := RenderOf(n, withElement, g, rank, s, cur);
      o.completion.Normal? ==>
        o.child == if Skipped(g[n]) || |g[n].children| == 0 then cur else LastVisited(g, rank, n)
    decreases rank[n], 2, 0
  {
    if !Skipped(g[n]) {
      BodyChild(n, g, rank, s, cur);
    }
  }

  lemma {:induction false} BodyChild(n: Sprite, g: Graph, rank: map<Sprite, nat>, s: Surfaces, cur: Sprite?)
    requires Ranked(g, rank) && n in g && Backed(g, s) && !Skipped(g[n])
    ensures var o := Body(n, g, rank, s, cur);
      o.completion.Normal? ==> o.child == if |g[n].children| == 0 then cur else LastVisited(g, rank, n)
    decreases rank[n], 1, 0
  {
    var a := g[n];
    if |a.children| > 0 && |s.contexts| < s.limit {
      var h := |s.contexts|;
      ComposeFromChild(n, 0, h, g, rank, Issue(Allocate(s), h, DrawImage(a.canvas, a.x, a.y)), cur);
    }
  }

  lemma {:induction false} ComposeFromChild(n: Sprite, i: nat, h: Handle, g: Graph, rank: map<Sprite, nat>, s: Surfaces, cur: Sprite?)
    requires Ranked(g, rank) && n in g && !Skipped(g[n]) && i <= |g[n].children| && Backed(g, s) && h < |s.contexts|
    ensures var o := ComposeFrom(n, i, h, g, rank, s, cur);
      var ch := g[n].children;
      o.completion.Normal? ==> o.child == if i == |ch| then cur else LastVisited(g, rank, ch[|ch| - 1])
    decreases rank[n], 0, |g[n].children| - i
  {
    if i < |g[n].children| {
      var t := Step(n, i, h, g, rank, s);
      StepChild(n, i, h, g, rank, s);
      if t.completion.Normal? {
        ComposeFromChild(n, i + 1, h, g, rank, t.surfaces, t.child);
      }
    }
  }

  lemma {:induction false} StepChild(n: Sprite, i: nat, h: Handle, g: Graph, rank: map<Sprite, nat>, s: Surfaces)
    requires Ranked(g, rank) && n in g && !Skipped(g[n]) && i < |g[n].children| && Backed(g, s) && h < |s.contexts|
    ensures var o := Step(n, i, h, g, rank, s);
      o.completion.Normal? ==> o.child == LastVisited(g, rank, g[n].children[i])
    decreases rank[n], 0, |g[n].children| - i - 1
  {
    var c := g[n].children[i];
    RenderOfChild(c, false, g, rank, s, c);
  }

  /** The shared `child`: when child i of n renders to a canvas, that canvas is
      composited with the alpha, offset and rotation of LastVisited of the
      child, which is the child itself exactly when the child has no
      children of its own. */
  lemma SharedChild(n: Sprite, i: nat, h: Handle, g: Graph, rank: map<Sprite, nat>, s: Surfaces)
    requires Ranked(g, rank) && n in g && !Skipped(g[n]) && i < |g[n].children| && Backed(g, s) && h < |s.contexts|
    ensures var c := g[n].children[i];
      var r := RenderOf(c, false, g, rank, s, c);
      r.completion.Normal? && r.completion.value.Surface? ==>
        var k := LastVisited(g, rank, c);
        Step(n, i, h, g, rank, s).surfaces == Composite(r.surfaces, h, g[k], r.completion.value.handle) &&
        (k == c <==> |g[c].children| == 0)
  {
    var c := g[n].children[i];
    RenderOfChild(c, false, g, rank, s, c);
  }

  /** What render answers without an element: a sprite without children
      never fails and answers its own canvas, after only the
      finally block's assignment of its alpha; a sprite with children
      answers, when it completes normally, the new scratch canvas. */
  lemma RenderReturns(n: Sprite, g: Graph, rank: map<Sprite, nat>, s: Surfaces, cur: Sprite?)
    requires Ranked(g, rank) && n in g && Backed(g, s)
    ensures var o := RenderOf(n, false, g, rank, s, cur);
      var a := g[n];
      (!Skipped(a) && |a.children| == 0 ==>
        o == Outcome(Normal(Surface(a.canvas)), Issue(s, a.canvas, SetAlpha(s.contexts[a.canvas].globalAlpha)), cur, [])) &&
      (!Skipped(a) && |a.children| > 0 && o.completion.Normal? ==> o.completion == Normal(Surface(|s.contexts|)))
  {
  }

  /** The scratch canvas of a sprite with children, once render completes
      normally: the sprite's own canvas drawn at its offset, followed by whole
      save ... restore brackets (StepOnScratch says what each child adds), and
      its alpha and save stack are those of a new canvas. */
  lemma ScratchContents(n: Sprite, withElement: bool, g: Graph, rank: map<Sprite, nat>, s: Surfaces, cur: Sprite?)
    requires Ranked(g, rank) && n in g && Backed(g, s)
    requires !Skipped(g[n]) && |g[n].children| > 0
    ensures var o := RenderOf(n, withElement, g, rank, s, cur);
      var a := g[n];
      o.completion.Normal? ==>
        |s.contexts| < |o.surfaces.contexts| &&
        var c := o.surfaces.contexts[|s.contexts|];
        c.globalAlpha == 1.0 && c.saved == [] && |c.log| >= 1 &&
        c.log[0] == DrawImage(a.canvas, a.x, a.y) && Brackets(c.log[1..])
  {
    var a := g[n];
    var b := Body(n, g, rank, s, cur);
    var o := RenderOf(n, withElement, g, rank, s, cur);
    if o.completion.Normal? {
      var h := |s.contexts|;
      var s1 := Issue(Allocate(s), h, DrawImage(a.canvas, a.x, a.y));
      CanvasesBacked(g, s);
      ComposeFromFrame(n, 0, h, g, rank, s1, cur);
      BodyFrame(n, g, rank, s, cur);
      FinishFrame(g, n, withElement, s, b);
    }
  }

  /** What render does with an element: when it completes normally it
      answers undefined and has appended exactly one canvas, the last one
      created, holding the composition drawn once at the sprite's offset
      with the sprite's alpha; when it fails it has appended nothing. */
  lemma RenderAttaches(n: Sprite, g: Graph, rank: map<Sprite, nat>, s: Surfaces, cur: Sprite?)
    requires Ranked(g, rank) && n in g && Backed(g, s) && !Skipped(g[n])
    ensures var o := RenderOf(n, true, g, rank, s, cur);
      var a := g[n];
      var image := if |a.children| == 0 then a.canvas else |s.contexts|;
      (o.completion.Thrown? ==> o.attached == []) &&
      (o.completion.Normal? ==>
        o.completion == Normal(Undefined) && |o.attached| == 1 &&
        var w := o.attached[0];
        w == |o.surfaces.contexts| - 1 && image < w &&
        o.surfaces.contexts[w] == Context(a.alpha, [], [SetAlpha(a.alpha), DrawImage(image, a.x, a.y)]))
  {
  }

  /** An invisible or fully transparent sprite renders nothing, with or
      without an element: it answers false, creates no canvas, issues no
      operation and appends nothing. */
  lemma RenderSkips(n: Sprite, withElement: bool, g: Graph, rank: map<Sprite, nat>, s: Surfaces, cur: Sprite?)
    requires Ranked(g, rank) && n in g && Backed(g, s)
    ensures Skipped(g[n]) <==> RenderOf(n, withElement, g, rank, s, cur).completion == Normal(False)
    ensures Skipped(g[n]) ==> RenderOf(n, withElement, g, rank, s, cur) == Outcome(Normal(False), s, cur, [])
  {
  }

  /** The finally block: whether render completes normally or fails, the
      sprite's own context ends with the globalAlpha it had on entry. */
  lemma AlphaRestored(n: Sprite, withElement: bool, g: Graph, rank: map<Sprite, nat>, s: Surfaces, cur: Sprite?)
    requires Ranked(g, rank) && n in g && Backed(g, s)
    ensures var o := RenderOf(n, withElement, g, rank, s, cur);
      o.surfaces.contexts[g[n].canvas].globalAlpha == s.contexts[g[n].canvas].globalAlpha
  {
    RenderOfFrame(n, withElement, g, rank, s, cur);
    assert g[n].canvas in Canvases(g);
  }

  /** One turn of the loop on the scratch canvas h: a child that answers false
      leaves h as it was, and a child that answers a canvas appends exactly
      one bracket to h, drawn with the attributes of LastVisited of the child
      (the child itself only when it has no children). */
  lemma StepOnScratch(n: Sprite, i: nat, h: Handle, g: Graph, rank: map<Sprite, nat>, s: Surfaces)
    requires Ranked(g, rank) && n in g && !Skipped(g[n]) && i < |g[n].children| && Backed(g, s) && h < |s.contexts|
    requires h !in Canvases(g)
    ensures var c := g[n].children[i];
      var r := RenderOf(c, false, g, rank, s, c);
      var t := Step(n, i, h, g, rank, s).surfaces.contexts[h];
      (r.completion == Normal(False) ==> t == s.contexts[h]) &&
      (r.completion.Normal? && r.completion.value.Surface? ==>
        t.log == s.contexts[h].log + Bracket(g[LastVisited(g, rank, c)], r.completion.value.handle))
  {
    var c := g[n].children[i];
    var r := RenderOf(c, false, g, rank, s, c);
    RenderOfFrame(c, false, g, rank, s, c);
    if r.completion.Normal? && r.completion.value.Surface? {
      SharedChild(n, i, h, g, rank, s);
      CompositeIsBracket(r.surfaces, h, g[LastVisited(g, rank, c)], r.completion.value.handle);
    }
  }

  /** A cycle that passes through a skipped sprite is no obstacle: the
      skipped sprite answers false before its loop, so a sprite whose child
      is invisible and has the sprite as its own child can be rendered. */
  lemma CycleThroughSkipped(p: Sprite, q: Sprite, ap: Attrs, aq: Attrs)
    requires p != q && ap.children == [q] && aq.children == [p]
    requires !Skipped(ap) && Skipped(aq)
    ensures Ranked(map[p := ap, q := aq], map[p := 1, q := 0])
  {
  }

  /** Whatever hangs below a skipped sprite is never visited, so it need not
      be in the graph at all: a sprite whose only child is invisible can be
      rendered even when that child leads to a cycle of visible sprites. */
  lemma CycleBelowSkipped(n: Sprite, q: Sprite, r: Sprite, an: Attrs, aq: Attrs)
    requires n != q && r != n && r != q && an.children == [q] && aq.children == [r]
    requires !Skipped(an) && Skipped(aq)
    ensures Ranked(map[n := an, q := aq], map[n := 1, q := 0])
  {
  }
}
