/** `Framebuffer` (Framebuffer.h / Framebuffer.cpp): a framebuffer object with a
    list of colour textures, an optional depth renderbuffer, and helpers that
    bind, check and clear it. The GL context is an abstract state record: the
    draw and read framebuffer bindings, the framebuffer and renderbuffer
    objects, texture unit 0..n bindings, the clear state and the console. */
module Framebuffers {
  import opened Base

  const ColorAttachment0: nat := 0x8CE0       // GL_COLOR_ATTACHMENT0
  const FramebufferComplete: nat := 0x8CD5    // GL_FRAMEBUFFER_COMPLETE

  /** The `fbType` accepted by `bindAs`: `GL_FRAMEBUFFER` binds both targets. */
  datatype Target = BothTargets | DrawTarget | ReadTarget

  /** A framebuffer object as GL keeps it: attachment point to texture, the
      draw-buffer list, and the depth renderbuffer. */
  datatype Fbo = Fbo(colorAttachments: map<nat, nat>, drawBuffers: seq<nat>, depth: Option<nat>)

  /** Storage of a `GL_DEPTH_COMPONENT24` renderbuffer. */
  datatype Storage = Storage(width: int, height: int)

  datatype Context = Context(
    drawBinding: nat,
    readBinding: nat,
    framebuffers: map<nat, Fbo>,
    renderbuffers: map<nat, Storage>,
    textureUnits: map<nat, nat>,
    clearColor: seq<real>,
    clears: seq<nat>,     // the framebuffer each `glClear` acted on
    nextName: nat,
    console: seq<string>)

  /** Every live object name was handed out by the name counter. */
  ghost predicate Valid(ctx: Context)
  {
    && (forall n :: n in ctx.framebuffers ==> n < ctx.nextName)
    && (forall n :: n in ctx.renderbuffers ==> n < ctx.nextName)
  }

  /** The wrapper object; `m_width`/`m_height` are never assigned and are not
      part of the model. */
  datatype Framebuffer = Framebuffer(id: nat, colorBuffers: seq<nat>, renderbuffer: Option<nat>)

  /** The wrapper refers to a live framebuffer object. */
  ghost predicate Owns(ctx: Context, fb: Framebuffer)
  {
    && fb.id in ctx.framebuffers
    && (fb.renderbuffer.Some? ==> fb.renderbuffer.value in ctx.renderbuffers)
  }

  datatype Created = Created(fb: Framebuffer, ctx: Context)

  /** The constructor: `glCreateFramebuffers` hands out a fresh name for an
      object with no attachments. */
  function NewFramebuffer(ctx: Context): (r: Created)
    requires Valid(ctx)
    ensures Valid(r.ctx) && Owns(r.ctx, r.fb)
    ensures r.fb.id !in ctx.framebuffers && r.fb.colorBuffers == [] && r.fb.renderbuffer == None
    ensures r.ctx.framebuffers == ctx.framebuffers[r.fb.id := Fbo(map[], [], None)]
    ensures r.ctx == ctx.(framebuffers := r.ctx.framebuffers, nextName := r.ctx.nextName)
  {
    var id := ctx.nextName;
    Created(Framebuffer(id, [], None),
            ctx.(framebuffers := ctx.framebuffers[id := Fbo(map[], [], None)], nextName := id + 1))
  }

  /** `bindAs(fbType)`: the targets `fbType` names now refer to this object. */
  function BindAs(ctx: Context, fb: Framebuffer, target: Target): (r: Context)
    ensures r.drawBinding == (if target == ReadTarget then ctx.drawBinding else fb.id)
    ensures r.readBinding == (if target == DrawTarget then ctx.readBinding else fb.id)
    ensures r == ctx.(drawBinding := r.drawBinding, readBinding := r.readBinding)
  {
    match target
    case BothTargets => ctx.(drawBinding := fb.id, readBinding := fb.id)
    case DrawTarget => ctx.(drawBinding := fb.id)
    case ReadTarget => ctx.(readBinding := fb.id)
  }

  /** `unbind()`: both targets go back to the default framebuffer. */
  function Unbind(ctx: Context): (r: Context)
    ensures r.drawBinding == 0 && r.readBinding == 0
    ensures r == ctx.(drawBinding := 0, readBinding := 0)
  {
    ctx.(drawBinding := 0, readBinding := 0)
  }

  /** `glDrawBuffers` acts on the framebuffer bound for drawing. */
  function SetDrawBuffers(ctx: Context, buffers: seq<nat>): Context
    requires ctx.drawBinding in ctx.framebuffers
  {
    var fbo := ctx.framebuffers[ctx.drawBinding];
    ctx.(framebuffers := ctx.framebuffers[ctx.drawBinding := fbo.(drawBuffers := buffers)])
  }

  /** The draw-buffer list of `n` attachments: `COLOR_ATTACHMENT0 + i` for each
      `i < n`. */
  function AttachmentPoints(n: nat): (points: seq<nat>)
    ensures |points| == n
    ensures forall i :: 0 <= i < n ==> points[i] == ColorAttachment0 + i
  {
    if n == 0 then [] else AttachmentPoints(n - 1) + [ColorAttachment0 + n - 1]
  }

  /** Texture `texture` is attached at `COLOR_ATTACHMENT0 + i`. */
  predicate AttachedAt(attachments: map<nat, nat>, i: nat, texture: nat)
  {
    ColorAttachment0 + i in attachments && attachments[ColorAttachment0 + i] == texture
  }

  /** `attachColorBuffers(buffers)`: remembers the list, attaches buffer `i` at
      `COLOR_ATTACHMENT0 + i`, and only for more than one buffer binds the
      object, sets its draw buffers to all those points and unbinds. */
  method AttachColorBuffers(ctx: Context, fb: Framebuffer, buffers: seq<nat>) returns (fb': Framebuffer, ctx': Context)
    requires Owns(ctx, fb)
    ensures fb' == fb.(colorBuffers := buffers)
    ensures Owns(ctx', fb') && ctx'.framebuffers.Keys == ctx.framebuffers.Keys
    ensures forall n :: n in ctx.framebuffers && n != fb.id ==> ctx'.framebuffers[n] == ctx.framebuffers[n]
    ensures var before := ctx.framebuffers[fb.id];
            var after := ctx'.framebuffers[fb.id];
      && (forall i :: 0 <= i < |buffers| ==> AttachedAt(after.colorAttachments, i, buffers[i]))
      && (forall p :: p in before.colorAttachments && !(ColorAttachment0 <= p < ColorAttachment0 + |buffers|) ==>
            p in after.colorAttachments && after.colorAttachments[p] == before.colorAttachments[p])
      && after.depth == before.depth
      && after.drawBuffers == (if |buffers| > 1 then AttachmentPoints(|buffers|) else before.drawBuffers)
    ensures |buffers| > 1 ==> ctx'.drawBinding == 0 && ctx'.readBinding == 0
    ensures |buffers| <= 1 ==> ctx'.drawBinding == ctx.drawBinding && ctx'.readBinding == ctx.readBinding
    ensures ctx' == ctx.(framebuffers := ctx'.framebuffers, drawBinding := ctx'.drawBinding, readBinding := ctx'.readBinding)
  {
    fb' := fb.(colorBuffers := buffers);
    var fbo := ctx.framebuffers[fb.id];
    var attachments: seq<nat> := [];
    var i := 0;
    while i < |buffers|
      invariant 0 <= i <= |buffers|
      invariant attachments == AttachmentPoints(i)
      invariant fbo.drawBuffers == ctx.framebuffers[fb.id].drawBuffers && fbo.depth == ctx.framebuffers[fb.id].depth
      invariant forall j :: 0 <= j < i ==> AttachedAt(fbo.colorAttachments, j, buffers[j])
      invariant forall p :: p in ctx.framebuffers[fb.id].colorAttachments && !(ColorAttachment0 <= p < ColorAttachment0 + i) ==>
                  p in fbo.colorAttachments && fbo.colorAttachments[p] == ctx.framebuffers[fb.id].colorAttachments[p]
    {
      var before := fbo;
      fbo := fbo.(colorAttachments := fbo.colorAttachments[ColorAttachment0 + i := buffers[i]]);
      forall j | 0 <= j < i
        ensures AttachedAt(fbo.colorAttachments, j, buffers[j])
      {
        assert AttachedAt(before.colorAttachments, j, buffers[j]);
      }
      attachments := attachments + [ColorAttachment0 + i];
      i := i + 1;
    }
    ctx' := ctx.(framebuffers := ctx.framebuffers[fb.id := fbo]);
    if |attachments| > 1 {
      ctx' := BindAs(ctx', fb', BothTargets);
      ctx' := SetDrawBuffers(ctx', attachments);
      assert ctx'.framebuffers[fb.id] == fbo.(drawBuffers := attachments);
      ctx' := Unbind(ctx');
    }
  }

  /** `attachRenderbuffer(width, height)`: a fresh renderbuffer with that
      depth storage becomes the object's depth attachment. */
  function AttachRenderbuffer(ctx: Context, fb: Framebuffer, width: int, height: int): (r: Created)
    requires Valid(ctx) && Owns(ctx, fb)
    ensures Valid(r.ctx) && Owns(r.ctx, r.fb)
    ensures r.fb == fb.(renderbuffer := r.fb.renderbuffer) && r.fb.renderbuffer.Some?
    ensures var rb := r.fb.renderbuffer.value;
      && rb !in ctx.renderbuffers
      && r.ctx.renderbuffers == ctx.renderbuffers[rb := Storage(width, height)]
      && r.ctx.framebuffers == ctx.framebuffers[fb.id := ctx.framebuffers[fb.id].(depth := Some(rb))]
    ensures r.ctx == ctx.(framebuffers := r.ctx.framebuffers, renderbuffers := r.ctx.renderbuffers,
                          nextName := r.ctx.nextName)
  {
    var rb := ctx.nextName;
    var fbo := ctx.framebuffers[fb.id];
    Created(fb.(renderbuffer := Some(rb)),
            ctx.(renderbuffers := ctx.renderbuffers[rb := Storage(width, height)],
                 framebuffers := ctx.framebuffers[fb.id := fbo.(depth := Some(rb))],
                 nextName := rb + 1))
  }

  /** `resizeRB(width, height)`: re-specifies the depth renderbuffer's storage
      and nothing else. The wrapper's renderbuffer name is only set by
      `attachRenderbuffer`, so the call presupposes it. */
  function ResizeRenderbuffer(ctx: Context, fb: Framebuffer, width: int, height: int): (r: Context)
    requires fb.renderbuffer.Some?
    ensures r.renderbuffers == ctx.renderbuffers[fb.renderbuffer.value := Storage(width, height)]
    ensures r == ctx.(renderbuffers := r.renderbuffers)
  {
    ctx.(renderbuffers := ctx.renderbuffers[fb.renderbuffer.value := Storage(width, height)])
  }

  const IncompleteMessage: string := "ERROR::FRAMEBUFFER::             Framebuffer is not complete\n"

  datatype Completeness = Completeness(complete: bool, ctx: Context)

  /** `isComplete()`: binds the object, asks GL for the draw framebuffer's
      status (`status` is that oracle), reports an incomplete one, and
      unbinds. */
  function IsComplete(ctx: Context, fb: Framebuffer, status: (nat, Fbo) -> nat): (r: Completeness)
    requires Owns(ctx, fb)
    ensures r.complete <==> status(fb.id, ctx.framebuffers[fb.id]) == FramebufferComplete
    ensures r.ctx.drawBinding == 0 && r.ctx.readBinding == 0
    ensures r.ctx.console == ctx.console + (if r.complete then [] else [IncompleteMessage])
    ensures r.ctx == ctx.(drawBinding := 0, readBinding := 0, console := r.ctx.console)
  {
    var bound := BindAs(ctx, fb, BothTargets);
    var complete := status(bound.drawBinding, bound.framebuffers[bound.drawBinding]) == FramebufferComplete;
    var logged := if complete then bound else bound.(console := bound.console + [IncompleteMessage]);
    Completeness(complete, Unbind(logged))
  }

  /** `clear()`: sets the clear colour to opaque black and clears colour and
      depth of whichever framebuffer is bound for drawing, which need not be
      this one. */
  function Clear(ctx: Context, fb: Framebuffer): (r: Context)
    ensures r.clearColor == [0.0, 0.0, 0.0, 1.0]
    ensures r.clears == ctx.clears + [ctx.drawBinding]
    ensures r == ctx.(clearColor := r.clearColor, clears := r.clears)
  {
    ctx.(clearColor := [0.0, 0.0, 0.0, 1.0], clears := ctx.clears + [ctx.drawBinding])
  }

  /** `bindTexture(index)`: colour buffer `index` goes to texture unit 0; the
      index must name one of the colour buffers. */
  function BindTexture(ctx: Context, fb: Framebuffer, index: nat): (r: Context)
    requires index < |fb.colorBuffers|
    ensures 0 in r.textureUnits && r.textureUnits[0] == fb.colorBuffers[index]
    ensures forall u :: u in ctx.textureUnits && u != 0 ==> u in r.textureUnits && r.textureUnits[u] == ctx.textureUnits[u]
    ensures r == ctx.(textureUnits := r.textureUnits)
  {
    ctx.(textureUnits := ctx.textureUnits[0 := fb.colorBuffers[index]])
  }

  /** `colorBuffer(index)` after `attachColorBuffers(buffers)` is
      `buffers[index]`, and resizing the depth renderbuffer leaves the colour
      list and every framebuffer object as they were. */
  method AttachThenResize(ctx: Context, fb: Framebuffer, buffers: seq<nat>, width: int, height: int)
    returns (fb': Framebuffer, ctx': Context)
    requires Valid(ctx) && Owns(ctx, fb) && fb.renderbuffer.Some?
    ensures fb'.colorBuffers == buffers && fb'.id == fb.id
    ensures forall i :: 0 <= i < |buffers| ==> fb'.colorBuffers[i] == buffers[i]
    ensures ctx'.renderbuffers == ctx.renderbuffers[fb.renderbuffer.value := Storage(width, height)]
    ensures fb.id in ctx'.framebuffers
    ensures forall i :: 0 <= i < |buffers| ==> AttachedAt(ctx'.framebuffers[fb.id].colorAttachments, i, buffers[i])
  {
    var c;
    fb', c := AttachColorBuffers(ctx, fb, buffers);
    ctx' := ResizeRenderbuffer(c, fb', width, height);
  }

  /** Binding as a framebuffer and unbinding leaves both targets at 0 and
      nothing else changed. */
  lemma BindUnbind(ctx: Context, fb: Framebuffer, target: Target)
    ensures Unbind(BindAs(ctx, fb, target)) == Unbind(ctx)
    ensures BindAs(ctx, fb, BothTargets).drawBinding == fb.id && BindAs(ctx, fb, BothTargets).readBinding == fb.id
  {
  }

  /** A completeness check is repeatable: the second check gives the same
      answer, because the first changed no framebuffer object. */
  lemma IsCompleteStable(ctx: Context, fb: Framebuffer, status: (nat, Fbo) -> nat)
    requires Owns(ctx, fb)
    ensures var first := IsComplete(ctx, fb, status);
      Owns(first.ctx, fb) && IsComplete(first.ctx, fb, status).complete == first.complete
  {
  }
}
