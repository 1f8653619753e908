/**
 * PointLight::render and BaseLight::unmaskWithPenumbras as a trace of abstract draw
 * commands. Pixels, shaders and blend effects are not modelled; the commands record what
 * is drawn, where, with which colour, target and blend mode.
 */
module Rendering {
  import opened Geometry
  import opened Colors
  import opened Penumbras
  import opened Lights

  datatype Target = LightTexture | AntumbraTexture

  datatype Blend = BlendAdd | BlendMultiply

  datatype Shader = NoShader | LightOverShapeShader

  /** A drawn point: exactly `p`, or `p` moved the shadow extension along the unit `direction`. */
  datatype Anchor = At(p: Vec) | Beyond(p: Vec, direction: Vec, distance: real)

  datatype TexVertex = TexVertex(position: Anchor, u: real, v: real)

  /** What rayIntersect reports for a pair of rays: no meeting point, or the point. */
  datatype Meet = NoMeet | MeetAt(p: Vec)

  datatype Command =
    | Clear(target: Target, color: Color)
    | DrawLightSprite
    | DrawCollider(collider: nat, color: Color, shader: Shader)
    | Mask(target: Target, corners: seq<Anchor>)
    | Unshadow(target: Target, blend: Blend, lightBrightness: real, darkBrightness: real, triangle: seq<TexVertex>)
    | MultiplyAntumbra
    | Display(target: Target)

  /** The numeric kernel's results for one collider under this light: one vertex view per collider point. */
  datatype ColliderInput = ColliderInput(vertices: seq<VertexView>, outerMeet: Meet, innerMeet: Meet)

  /** The collider state the render pass reads. */
  datatype ColliderState = ColliderState(active: bool, lightOverShape: bool)

  /** The unshadow triangle of one wedge. */
  function Triangle(target: Target, blend: Blend, p: Penumbra, ext: real): Command {
    Unshadow(target, blend, p.lightBrightness, p.darkBrightness,
             [TexVertex(At(p.source), 0.0, 1.0),
              TexVertex(Beyond(p.source, p.lightEdge, ext), 1.0, 0.0),
              TexVertex(Beyond(p.source, p.darkEdge, ext), 0.0, 0.0)])
  }

  function Unmasked(target: Target, blend: Blend, ps: seq<Penumbra>, ext: real): (cmds: seq<Command>)
    ensures |cmds| == |ps|
  {
    seq(|ps|, i requires 0 <= i < |ps| => Triangle(target, blend, ps[i], ext))
  }

  /** BaseLight::unmaskWithPenumbras (Light.cpp:51-75): one triangle draw per wedge. */
  method UnmaskWithPenumbras(target: Target, blend: Blend, penumbras: seq<Penumbra>, shadowExtension: real)
    returns (cmds: seq<Command>)
    ensures cmds == Unmasked(target, blend, penumbras, shadowExtension)
  {
    cmds := [];
    var i := 0;
    while i < |penumbras|
      invariant 0 <= i <= |penumbras|
      invariant cmds == Unmasked(target, blend, penumbras[..i], shadowExtension)
    {
      cmds := cmds + [Triangle(target, blend, penumbras[i], shadowExtension)];
      i := i + 1;
      assert Unmasked(target, blend, penumbras[..i], shadowExtension)
          == Unmasked(target, blend, penumbras[..i - 1], shadowExtension) + [Triangle(target, blend, penumbras[i - 1], shadowExtension)];
    }
    assert penumbras[..i] == penumbras;
  }

  /**
   * Unmasking draws the wedges in list order, each as one triangle on the given target and
   * blend: first vertex the wedge source, the others pushed out along the light and dark
   * edges, texture coordinates (0, 1), (1, 0), (0, 0), and the wedge's brightness pair.
   */
  lemma UnmaskOnePerWedge(target: Target, blend: Blend, ps: seq<Penumbra>, ext: real)
    ensures var cmds := Unmasked(target, blend, ps, ext);
      && |cmds| == |ps|
      && forall i :: 0 <= i < |ps| ==>
           cmds[i].Unshadow? && cmds[i].target == target && cmds[i].blend == blend
           && cmds[i].lightBrightness == ps[i].lightBrightness && cmds[i].darkBrightness == ps[i].darkBrightness
           && |cmds[i].triangle| == 3
           && cmds[i].triangle[0].position == At(ps[i].source)
           && cmds[i].triangle[1].position == Beyond(ps[i].source, ps[i].lightEdge, ext)
           && cmds[i].triangle[2].position == Beyond(ps[i].source, ps[i].darkEdge, ext)
           && (cmds[i].triangle[0].u, cmds[i].triangle[0].v) == (0.0, 1.0)
           && (cmds[i].triangle[1].u, cmds[i].triangle[1].v) == (1.0, 0.0)
           && (cmds[i].triangle[2].u, cmds[i].triangle[2].v) == (0.0, 0.0)
  {
  }

  /** A collider gets shadow processing: active, with exactly two inner and two outer boundaries. */
  predicate Processed(s: ColliderState, vs: seq<VertexView>) {
    s.active && |InnerIndices(vs)| == 2 && |FinalOuter(vs).indices| == 2
  }

  /** The quad from two points along two rays out to the shadow extension. */
  function Quad(a: Vec, b: Vec, ad: Vec, bd: Vec, ext: real): seq<Anchor> {
    [At(a), At(b), Beyond(b, bd, ext), Beyond(a, ad, ext)]
  }

  /**
   * The shadow commands of a processed collider (Light.cpp:211-277): with meeting outer rays
   * an antumbra pass (cleared white, masked by the inner triangle or quad, penumbras added,
   * multiplied onto the light texture); otherwise the outer quad masked on the light texture
   * and penumbras multiplied.
   */
  function ShadowCommands(input: ColliderInput, ext: real): seq<Command>
    requires |InnerIndices(input.vertices)| == 2 && |FinalOuter(input.vertices).indices| == 2
  {
    var vs := input.vertices;
    var ii := InnerIndices(vs);
    var iv := InnerVectors(vs);
    FinalOuterInRange(vs);
    var o := FinalOuter(vs);
    var ps := Wedges(vs);
    match input.outerMeet
    case MeetAt(_) =>
      var asi := vs[ii[0]].point;
      var bsi := vs[ii[1]].point;
      var mask := match input.innerMeet
        case MeetAt(p) => [At(asi), At(bsi), At(p)]
        case NoMeet => Quad(asi, bsi, iv[0], iv[1], ext);
      [Clear(AntumbraTexture, White), Mask(AntumbraTexture, mask)]
        + Unmasked(AntumbraTexture, BlendAdd, ps, ext)
        + [Display(AntumbraTexture), MultiplyAntumbra]
    case NoMeet =>
      [Mask(LightTexture, Quad(vs[o.indices[0]].point, vs[o.indices[1]].point, o.vectors[0], o.vectors[1], ext))]
        + Unmasked(LightTexture, BlendMultiply, ps, ext)
  }

  /** The first-pass commands of collider `i` (Light.cpp:185-279). */
  function ColliderPlan(i: nat, s: ColliderState, input: ColliderInput, ext: real): seq<Command> {
    if !Processed(s, input.vertices) then []
    else
      (if s.lightOverShape then [] else [DrawCollider(i, Black, NoShader)])
        + ShadowCommands(input, ext)
  }

  /** The first-pass plans of all colliders, one list of commands per collider. */
  function Plans(states: seq<ColliderState>, inputs: seq<ColliderInput>, ext: real): (plans: seq<seq<Command>>)
    requires |states| == |inputs|
    ensures |plans| == |states|
  {
    seq(|states|, i requires 0 <= i < |states| => ColliderPlan(i, states[i], inputs[i], ext))
  }

  /** The lists of `pss`, one after the other. */
  function Flatten(pss: seq<seq<Command>>): seq<Command> {
    if |pss| == 0 then [] else Flatten(pss[..|pss| - 1]) + pss[|pss| - 1]
  }

  /** Flattening one more plan appends it. */
  lemma FlattenExtend(pss: seq<seq<Command>>, i: nat)
    requires i < |pss|
    ensures Flatten(pss[..i + 1]) == Flatten(pss[..i]) + pss[i]
  {
    assert pss[..i + 1][..i] == pss[..i];
  }

  /** The first pass over all colliders. */
  function FirstPass(states: seq<ColliderState>, inputs: seq<ColliderInput>, ext: real): seq<Command>
    requires |states| == |inputs|
  {
    Flatten(Plans(states, inputs, ext))
  }

  /** The colour the final pass gives a collider. */
  function FinalColor(lightOverShape: bool): Color {
    if lightOverShape then White else Black
  }

  /** The final pass (Light.cpp:281-298) over colliders 0 .. k - 1. */
  function FinalPass(states: seq<ColliderState>, k: nat): (cmds: seq<Command>)
    requires k <= |states|
    ensures |cmds| == k
  {
    if k == 0 then []
    else FinalPass(states, k - 1) + [DrawCollider(k - 1, FinalColor(states[k - 1].lightOverShape), LightOverShapeShader)]
  }

  /** The whole trace of PointLight::render. */
  function RenderPlan(states: seq<ColliderState>, inputs: seq<ColliderInput>, ext: real): seq<Command>
    requires |states| == |inputs|
  {
    [Clear(LightTexture, Black), DrawLightSprite]
      + FirstPass(states, inputs, ext)
      + FinalPass(states, |states|)
      + [Display(LightTexture)]
  }

  function States(colliders: seq<LightCollider>): (s: seq<ColliderState>)
    reads set c | c in colliders, set c | c in colliders :: c.base
    ensures |s| == |colliders|
  {
    seq(|colliders|, i requires 0 <= i < |colliders| reads set c | c in colliders, set c | c in colliders :: c.base =>
      ColliderState(colliders[i].base.active, colliders[i].lightOverShape))
  }

  /**
   * PointLight::render (Light.cpp:151-301) over a list of colliders, with the numeric
   * kernel's results per collider in `inputs` and the shadow extension `ext`. It emits the
   * command trace and leaves each collider coloured by the final pass.
   */
  method Render(colliders: seq<LightCollider>, inputs: seq<ColliderInput>, ext: real) returns (cmds: seq<Command>)
    requires |inputs| == |colliders|
    requires forall i :: 0 <= i < |colliders| ==> |inputs[i].vertices| == |colliders[i].points|
    modifies set c | c in colliders
    ensures cmds == RenderPlan(old(States(colliders)), inputs, ext)
    ensures forall i :: 0 <= i < |colliders| ==>
      colliders[i].color == FinalColor(colliders[i].lightOverShape)
    ensures forall i :: 0 <= i < |colliders| ==>
      colliders[i].points == old(colliders[i].points) && colliders[i].lightOverShape == old(colliders[i].lightOverShape)
  {
    ghost var states := States(colliders);
    var first := FirstPassMethod(colliders, inputs, ext, states);
    var final := FinalPassMethod(colliders, states);
    cmds := [Clear(LightTexture, Black), DrawLightSprite] + first + final + [Display(LightTexture)];
  }

  /** The first pass (Light.cpp:185-279): each collider's own commands, in list order. */
  method FirstPassMethod(colliders: seq<LightCollider>, inputs: seq<ColliderInput>, ext: real,
                         ghost states: seq<ColliderState>) returns (cmds: seq<Command>)
    requires |inputs| == |colliders| == |states|
    requires forall j :: 0 <= j < |colliders| ==> states[j] == ColliderState(colliders[j].base.active, colliders[j].lightOverShape)
    requires forall j :: 0 <= j < |colliders| ==> |inputs[j].vertices| == |colliders[j].points|
    modifies set c | c in colliders
    ensures cmds == FirstPass(states, inputs, ext)
    ensures forall j :: 0 <= j < |colliders| ==> states[j] == ColliderState(colliders[j].base.active, colliders[j].lightOverShape)
    ensures forall j :: 0 <= j < |colliders| ==>
      colliders[j].points == old(colliders[j].points) && colliders[j].lightOverShape == old(colliders[j].lightOverShape)
  {
    ghost var plans := Plans(states, inputs, ext);
    cmds := [];
    var i := 0;
    while i < |colliders|
      invariant 0 <= i <= |colliders|
      invariant cmds == Flatten(plans[..i])
      invariant forall j :: 0 <= j < |colliders| ==> states[j] == ColliderState(colliders[j].base.active, colliders[j].lightOverShape)
      invariant forall j :: 0 <= j < |colliders| ==>
        colliders[j].points == old(colliders[j].points) && colliders[j].lightOverShape == old(colliders[j].lightOverShape)
    {
      var step := RenderCollider(colliders[i], i, inputs[i], ext, states[i]);
      FlattenExtend(plans, i);
      cmds := cmds + step;
      i := i + 1;
    }
    assert plans[..i] == plans;
  }

  /** One collider of the first pass (Light.cpp:185-279). */
  method RenderCollider(lc: LightCollider, i: nat, input: ColliderInput, ext: real, ghost s: ColliderState)
    returns (cmds: seq<Command>)
    requires s == ColliderState(lc.base.active, lc.lightOverShape)
    requires |input.vertices| == |lc.points|
    modifies lc
    ensures cmds == ColliderPlan(i, s, input, ext)
    ensures lc.points == old(lc.points) && lc.lightOverShape == old(lc.lightOverShape)
  {
    cmds := [];
    var active := lc.base.IsActive();
    if active {
      var vs := input.vertices;
      var penumbras, innerIndices, innerVectors, outerIndices, outerVectors :=
        GetPenumbrasPoint(vs, [], [], [], [], []);
      if |innerIndices| == 2 && |outerIndices| == 2 {
        lc.SetColor(Black);
        var los := lc.GetLightOverShape();
        if !los {
          cmds := [DrawCollider(i, Black, NoShader)];
        }
        var shadow := ShadowPass(vs, input.outerMeet, input.innerMeet, ext,
                                 penumbras, innerIndices, innerVectors, outerIndices, outerVectors);
        cmds := cmds + shadow;
      }
    }
  }

  /** The branch structure of the shadow commands, over the lists getPenumbrasPoint returned. */
  method ShadowPass(vs: seq<VertexView>, outerMeet: Meet, innerMeet: Meet, ext: real,
                    penumbras: seq<Penumbra>, innerIndices: seq<int>, innerVectors: seq<Vec>,
                    outerIndices: seq<int>, outerVectors: seq<Vec>) returns (cmds: seq<Command>)
    requires innerIndices == InnerIndices(vs) && innerVectors == InnerVectors(vs) && penumbras == Wedges(vs)
    requires OuterList(outerIndices, outerVectors) == FinalOuter(vs)
    requires |innerIndices| == 2 && |outerIndices| == 2
    ensures cmds == ShadowCommands(ColliderInput(vs, outerMeet, innerMeet), ext)
  {
    FinalOuterInRange(vs);
    var outerA := vs[outerIndices[0]].point;
    var outerB := vs[outerIndices[1]].point;
    var ad := outerVectors[0];
    var bd := outerVectors[1];
    match outerMeet
    case MeetAt(_) =>
      var asi := vs[innerIndices[0]].point;
      var bsi := vs[innerIndices[1]].point;
      var adi := innerVectors[0];
      var bdi := innerVectors[1];
      cmds := [Clear(AntumbraTexture, White)];
      match innerMeet {
        case MeetAt(intersectionInner) =>
          cmds := cmds + [Mask(AntumbraTexture, [At(asi), At(bsi), At(intersectionInner)])];
        case NoMeet =>
          cmds := cmds + [Mask(AntumbraTexture, Quad(asi, bsi, adi, bdi, ext))];
      }
      var unmask := UnmaskWithPenumbras(AntumbraTexture, BlendAdd, penumbras, ext);
      cmds := cmds + unmask + [Display(AntumbraTexture), MultiplyAntumbra];
    case NoMeet =>
      cmds := [Mask(LightTexture, Quad(outerA, outerB, ad, bd, ext))];
      var unmask := UnmaskWithPenumbras(LightTexture, BlendMultiply, penumbras, ext);
      cmds := cmds + unmask;
  }

  /** The final pass (Light.cpp:281-298): every collider recoloured and drawn with the light-over-shape shader. */
  method FinalPassMethod(colliders: seq<LightCollider>, ghost states: seq<ColliderState>) returns (cmds: seq<Command>)
    requires |states| == |colliders|
    requires forall j :: 0 <= j < |colliders| ==> states[j].lightOverShape == colliders[j].lightOverShape
    modifies set c | c in colliders
    ensures cmds == FinalPass(states, |colliders|)
    ensures forall j :: 0 <= j < |colliders| ==> colliders[j].color == FinalColor(colliders[j].lightOverShape)
    ensures forall j :: 0 <= j < |colliders| ==>
      colliders[j].points == old(colliders[j].points) && colliders[j].lightOverShape == old(colliders[j].lightOverShape)
  {
    cmds := [];
    var i := 0;
    while i < |colliders|
      invariant 0 <= i <= |colliders|
      invariant cmds == FinalPass(states, i)
      invariant forall j :: 0 <= j < |colliders| ==>
        colliders[j].points == old(colliders[j].points) && colliders[j].lightOverShape == old(colliders[j].lightOverShape)
      invariant forall j :: 0 <= j < i ==> colliders[j].color == FinalColor(colliders[j].lightOverShape)
    {
      var collider := colliders[i];
      var los := collider.GetLightOverShape();
      if los {
        collider.SetColor(White);
      } else {
        collider.SetColor(Black);
      }
      cmds := cmds + [DrawCollider(i, FinalColor(los), LightOverShapeShader)];
      i := i + 1;
    }
  }
  /** A collider produces first-pass commands exactly when it is processed; the silhouette comes first exactly when light-over-shape is off. */
  lemma PlanExactlyWhenProcessed(i: nat, s: ColliderState, input: ColliderInput, ext: real)
    ensures var plan := ColliderPlan(i, s, input, ext);
      && (plan != [] <==> Processed(s, input.vertices))
      && (plan != [] && plan[0] == DrawCollider(i, Black, NoShader) <==> Processed(s, input.vertices) && !s.lightOverShape)
  {
    if Processed(s, input.vertices) {
      var c := ShadowCommands(input, ext);
      assert c[0].Clear? || c[0].Mask?;
    }
  }

  /** The shadow commands draw no collider: every entry is a clear, a mask, an unshadow triangle, a display or the multiply. */
  lemma ShadowDrawsNoCollider(input: ColliderInput, ext: real)
    requires |InnerIndices(input.vertices)| == 2 && |FinalOuter(input.vertices).indices| == 2
    ensures forall c :: c in ShadowCommands(input, ext) ==> !c.DrawCollider?
  {
    var vs := input.vertices;
    var ps := Wedges(vs);
    assert forall c :: c in Unmasked(AntumbraTexture, BlendAdd, ps, ext) ==> c.Unshadow?;
    assert forall c :: c in Unmasked(LightTexture, BlendMultiply, ps, ext) ==> c.Unshadow?;
  }

  /**
   * The two shadow branches: with meeting outer rays the antumbra texture is cleared white
   * and masked by a triangle exactly when the inner rays meet as well (a quad otherwise),
   * and the pass ends by multiplying it onto the light; without, one outer quad is masked on
   * the light texture. Either way the unshadow triangles follow the mask, one per wedge.
   */
  lemma ShadowBranches(input: ColliderInput, ext: real)
    requires |InnerIndices(input.vertices)| == 2 && |FinalOuter(input.vertices).indices| == 2
    ensures var c := ShadowCommands(input, ext);
      var n := |Wedges(input.vertices)|;
      && (c[0] == Clear(AntumbraTexture, White) <==> input.outerMeet.MeetAt?)
      && (input.outerMeet.MeetAt? ==>
            && |c| == n + 4
            && c[1].Mask? && c[1].target == AntumbraTexture
            && (|c[1].corners| == 3 <==> input.innerMeet.MeetAt?)
            && c[|c| - 2] == Display(AntumbraTexture) && c[|c| - 1] == MultiplyAntumbra)
      && (input.outerMeet.NoMeet? ==>
            && |c| == n + 1
            && c[0].Mask? && c[0].target == LightTexture && |c[0].corners| == 4)
  {
  }

  /** Every unshadow triangle of a collider is added onto the antumbra texture when the outer rays meet, and multiplied onto the light texture otherwise. */
  lemma ShadowBlendModes(input: ColliderInput, ext: real)
    requires |InnerIndices(input.vertices)| == 2 && |FinalOuter(input.vertices).indices| == 2
    ensures forall c :: c in ShadowCommands(input, ext) && c.Unshadow? ==>
      if input.outerMeet.MeetAt? then c.target == AntumbraTexture && c.blend == BlendAdd
      else c.target == LightTexture && c.blend == BlendMultiply
  {
    var vs := input.vertices;
    var ps := Wedges(vs);
    assert forall c :: c in Unmasked(AntumbraTexture, BlendAdd, ps, ext) ==> c.target == AntumbraTexture && c.blend == BlendAdd;
    assert forall c :: c in Unmasked(LightTexture, BlendMultiply, ps, ext) ==> c.target == LightTexture && c.blend == BlendMultiply;
  }

  lemma {:induction false} FlattenEmpty(pss: seq<seq<Command>>)
    ensures Flatten(pss) == [] <==> forall j :: 0 <= j < |pss| ==> pss[j] == []
  {
    if |pss| > 0 {
      var init := pss[..|pss| - 1];
      FlattenEmpty(init);
      assert forall j :: 0 <= j < |init| ==> init[j] == pss[j];
    }
  }

  lemma {:induction false} FlattenMembers(pss: seq<seq<Command>>, x: Command)
    ensures x in Flatten(pss) <==> exists j :: 0 <= j < |pss| && x in pss[j]
  {
    if |pss| > 0 {
      var init := pss[..|pss| - 1];
      FlattenMembers(init, x);
      assert forall j :: 0 <= j < |init| ==> init[j] == pss[j];
      if x in pss[|pss| - 1] {
        assert x in pss[|pss| - 1];
      }
    }
  }

  /** Collider j's plan holds the black silhouette of collider i exactly when i is j, processed, with light-over-shape off. */
  lemma PlanSilhouette(j: nat, s: ColliderState, input: ColliderInput, ext: real, i: nat)
    ensures DrawCollider(i, Black, NoShader) in ColliderPlan(j, s, input, ext)
      <==> i == j && Processed(s, input.vertices) && !s.lightOverShape
  {
    if Processed(s, input.vertices) {
      ShadowDrawsNoCollider(input, ext);
    }
  }

  /** The first pass is empty exactly when no collider is processed. */
  lemma FirstPassEmptyExactly(states: seq<ColliderState>, inputs: seq<ColliderInput>, ext: real)
    requires |states| == |inputs|
    ensures FirstPass(states, inputs, ext) == []
      <==> forall j :: 0 <= j < |states| ==> !Processed(states[j], inputs[j].vertices)
  {
    var plans := Plans(states, inputs, ext);
    FlattenEmpty(plans);
    forall j | 0 <= j < |states|
      ensures plans[j] == [] <==> !Processed(states[j], inputs[j].vertices)
    {
      PlanExactlyWhenProcessed(j, states[j], inputs[j], ext);
    }
  }

  /** Collider i is drawn as a black silhouette in the first pass exactly when it is processed and light-over-shape is off. */
  lemma FirstPassSilhouettes(states: seq<ColliderState>, inputs: seq<ColliderInput>, ext: real, i: nat)
    requires |states| == |inputs|
    ensures DrawCollider(i, Black, NoShader) in FirstPass(states, inputs, ext)
      <==> i < |states| && Processed(states[i], inputs[i].vertices) && !states[i].lightOverShape
  {
    var plans := Plans(states, inputs, ext);
    var x := DrawCollider(i, Black, NoShader);
    FlattenMembers(plans, x);
    forall j | 0 <= j < |states|
      ensures x in plans[j] <==> i == j && Processed(states[j], inputs[j].vertices) && !states[j].lightOverShape
    {
      PlanSilhouette(j, states[j], inputs[j], ext, i);
    }
    if i < |states| && Processed(states[i], inputs[i].vertices) && !states[i].lightOverShape {
      assert x in plans[i];
    }
  }

  /** The final pass draws collider i as its i-th command, white when light-over-shape is on and black otherwise, always with the light-over-shape shader. */
  lemma {:induction false} FinalPassCovers(states: seq<ColliderState>, k: nat)
    requires k <= |states|
    ensures forall i :: 0 <= i < k ==>
      FinalPass(states, k)[i] == DrawCollider(i, FinalColor(states[i].lightOverShape), LightOverShapeShader)
  {
    if k > 0 {
      FinalPassCovers(states, k - 1);
      assert FinalPass(states, k) == FinalPass(states, k - 1) + [DrawCollider(k - 1, FinalColor(states[k - 1].lightOverShape), LightOverShapeShader)];
    }
  }

  /**
   * The shape of a whole render: the light texture is cleared black and the light sprite
   * drawn first, it is displayed last, and just before that every collider is drawn once,
   * in order, by the final pass.
   */
  lemma RenderPlanShape(states: seq<ColliderState>, inputs: seq<ColliderInput>, ext: real)
    requires |states| == |inputs|
    ensures var plan := RenderPlan(states, inputs, ext);
      var n := |states|;
      var off := |plan| - 1 - n;
      && |plan| == 3 + |FirstPass(states, inputs, ext)| + n
      && plan[0] == Clear(LightTexture, Black) && plan[1] == DrawLightSprite
      && plan[|plan| - 1] == Display(LightTexture)
      && forall i :: 0 <= i < n ==>
           plan[off + i] == DrawCollider(i, FinalColor(states[i].lightOverShape), LightOverShapeShader)
  {
    FinalPassCovers(states, |states|);
    Layout(FirstPass(states, inputs, ext), FinalPass(states, |states|), states);
  }

  /** Index arithmetic of the render trace, over any first and final pass. */
  lemma Layout(first: seq<Command>, fin: seq<Command>, states: seq<ColliderState>)
    requires |fin| == |states|
    requires forall i :: 0 <= i < |states| ==>
      fin[i] == DrawCollider(i, FinalColor(states[i].lightOverShape), LightOverShapeShader)
    ensures var plan := [Clear(LightTexture, Black), DrawLightSprite] + first + fin + [Display(LightTexture)];
      var n := |states|;
      && |plan| == 3 + |first| + n
      && plan[0] == Clear(LightTexture, Black) && plan[1] == DrawLightSprite
      && plan[|plan| - 1] == Display(LightTexture)
      && forall i :: 0 <= i < n ==>
           plan[|plan| - 1 - n + i] == DrawCollider(i, FinalColor(states[i].lightOverShape), LightOverShapeShader)
  {
    var plan := [Clear(LightTexture, Black), DrawLightSprite] + first + fin + [Display(LightTexture)];
    forall i | 0 <= i < |states|
      ensures plan[|plan| - 1 - |states| + i] == fin[i]
    {
      assert plan[2 + |first| + i] == fin[i];
    }
  }
}
