/**
 * The host drawing layer that a Blaze sprite talks to, modelled abstractly:
 * canvases are opaque handles handed out by the document, every canvas has
 * one 2D context (getContext('2d') always answers the same object), and a
 * context keeps its global alpha, the stack of alphas that save() pushed,
 * and an append-only log of every operation issued on it.
 */
module Canvas {

  datatype Option<T> = None | Some(value: T)

  /** An opaque canvas handle. */
  type Handle = nat

  /** The operations a sprite issues on a 2D context. Rotations are kept in the
      sprite's own unit (degrees); the conversion to radians is not modelled. */
  datatype Op =
    | Save
    | Restore
    | SetAlpha(alpha: real)
    | Translate(dx: real, dy: real)
    | Rotate(degrees: real)
    | DrawImage(image: Handle, dx: real, dy: real)

  /** The part of a 2D context's drawing state the model tracks. */
  datatype Context = Context(globalAlpha: real, saved: seq<real>, log: seq<Op>)

  /** The context of a newly created canvas. */
  const Blank := Context(1.0, [], [])

  /** Issues one operation: it is logged, and save, restore and an assignment
      to globalAlpha act on the state as on a canvas (a restore with nothing
      saved does nothing). */
  function Apply(c: Context, op: Op): (r: Context)
    ensures r.log == c.log + [op]
    ensures !op.Save? && !op.Restore? ==> r.saved == c.saved
    ensures op.SetAlpha? ==> r.globalAlpha == op.alpha
    ensures op.Translate? || op.Rotate? || op.DrawImage? ==> r.globalAlpha == c.globalAlpha
  {
    var log := c.log + [op];
    match op
    case Save => Context(c.globalAlpha, c.saved + [c.globalAlpha], log)
    case Restore =>
      if c.saved == [] then Context(c.globalAlpha, c.saved, log)
      else Context(c.saved[|c.saved| - 1], c.saved[..|c.saved| - 1], log)
    case SetAlpha(a) => Context(a, c.saved, log)
    case _ => Context(c.globalAlpha, c.saved, log)
  }

  /** Everything the document knows about canvases: how many canvases the host
      can create at all (creation fails past that), and the context of every
      canvas created so far, indexed by handle; the next handle is the number
      of canvases created. */
  datatype Surfaces = Surfaces(limit: nat, contexts: seq<Context>)

  /** Creates a canvas; its handle is |s.contexts|. */
  function Allocate(s: Surfaces): (t: Surfaces)
    requires |s.contexts| < s.limit
    ensures t.limit == s.limit && t.contexts == s.contexts + [Blank]
  {
    s.(contexts := s.contexts + [Blank])
  }

  /** Issues one operation on the context of canvas h. */
  function Issue(s: Surfaces, h: Handle, op: Op): (t: Surfaces)
    requires h < |s.contexts|
    ensures t.limit == s.limit && |t.contexts| == |s.contexts|
    ensures t.contexts[h] == Apply(s.contexts[h], op)
    ensures forall j :: 0 <= j < |s.contexts| && j != h ==> t.contexts[j] == s.contexts[j]
  {
    s.(contexts := s.contexts[h := Apply(s.contexts[h], op)])
  }

  /** The host document, as far as canvases go. */
  class Document {
    const limit: nat
    var contexts: seq<Context>

    function State(): Surfaces
      reads this
    {
      Surfaces(limit, contexts)
    }

    constructor (limit: nat)
      ensures State() == Surfaces(limit, [])
    {
      this.limit := limit;
      contexts := [];
    }

    /** document.createElement('canvas'): a fresh handle with a blank context,
        or a fault when the host cannot create one more canvas. */
    method CreateCanvas() returns (r: Option<Handle>)
      modifies this
      ensures old(|contexts|) < limit ==> r == Some(old(|contexts|)) && State() == Allocate(old(State()))
      ensures old(|contexts|) >= limit ==> r == None && State() == old(State())
    {
      if |contexts| < limit {
        r := Some(|contexts|);
        contexts := contexts + [Blank];
      } else {
        r := None;
      }
    }

    /** Reads the globalAlpha of canvas h's context. */
    function GlobalAlpha(h: Handle): (a: real)
      reads this
      requires h < |contexts|
    {
      contexts[h].globalAlpha
    }

    /** Issues one operation on canvas h's context (save, restore, an
        assignment to globalAlpha, translate, rotate or drawImage). */
    method Perform(h: Handle, op: Op)
      requires h < |contexts|
      modifies this
      ensures State() == Issue(old(State()), h, op)
    {
      contexts := contexts[h := Apply(contexts[h], op)];
    }
  }

  /** A host element that canvases can be appended to. */
  class Element {
    var appended: seq<Handle>

    constructor ()
      ensures appended == []
    {
      appended := [];
    }

    /** element.appendChild(canvas). */
    method AppendChild(h: Handle)
      modifies this
      ensures appended == old(appended) + [h]
    {
      appended := appended + [h];
    }
  }
}
