/** The image-layout transition rule shared by Texture2D::ChangeLayout,
    Texture3D::ChangeLayout and HdrEnvMap::ChangeColorImageLayout: of the
    layouts of section 12.4 of the Vulkan 1.3 specification only two forward
    steps are accepted, PREINITIALIZED to TRANSFER_DST_OPTIMAL (upload) and
    TRANSFER_DST_OPTIMAL to SHADER_READ_ONLY_OPTIMAL (sampling). */
module ImageLayouts {
  import opened Wrappers

  datatype ImageLayout =
    | Undefined
    | General
    | ColorAttachmentOptimal
    | DepthStencilAttachmentOptimal
    | DepthStencilReadOnlyOptimal
    | ShaderReadOnlyOptimal
    | TransferSrcOptimal
    | TransferDstOptimal
    | Preinitialized
    | PresentSrc

  /** The access masks of the barrier for an accepted transition. */
  datatype Access = AccessNone | TransferWrite | ShaderRead
  datatype Barrier = Barrier(srcAccess: Access, dstAccess: Access)

  // All three classes log this text, Texture3D and HdrEnvMap included.
  const UNKNOWN_TRANSITION := "Unknown image layout transision in Texture2D"

  /** The barrier for a transition from `current` to `requested`, or the
      error for any other pair. */
  function Transition(current: ImageLayout, requested: ImageLayout): (r: Outcome<Barrier>)
    ensures r.Ok? <==>
      (current == Preinitialized && requested == TransferDstOptimal)
      || (current == TransferDstOptimal && requested == ShaderReadOnlyOptimal)
    ensures r.Err? ==> r.msg == UNKNOWN_TRANSITION
    ensures r.Ok? && requested == TransferDstOptimal ==> r.value == Barrier(AccessNone, TransferWrite)
    ensures r.Ok? && requested == ShaderReadOnlyOptimal ==> r.value == Barrier(TransferWrite, ShaderRead)
  {
    if current == Preinitialized && requested == TransferDstOptimal then
      Ok(Barrier(AccessNone, TransferWrite))
    else if current == TransferDstOptimal && requested == ShaderReadOnlyOptimal then
      Ok(Barrier(TransferWrite, ShaderRead))
    else
      Err(UNKNOWN_TRANSITION)
  }

  /** How far along the upload path a layout is; other layouts are off it. */
  function Stage(layout: ImageLayout): (s: nat)
  {
    match layout
    case Preinitialized => 1
    case TransferDstOptimal => 2
    case ShaderReadOnlyOptimal => 3
    case _ => 0
  }

  /** The layout after applying each requested layout in turn, stopping at
      the first rejected request. */
  function Apply(current: ImageLayout, requests: seq<ImageLayout>): (r: Outcome<ImageLayout>)
    decreases |requests|
  {
    if |requests| == 0 then Ok(current)
    else
      var _ :- Transition(current, requests[0]);
      Apply(requests[0], requests[1..])
  }

  /** Every accepted transition advances exactly one stage along the upload
      path, so no layout is ever revisited. */
  lemma TransitionAdvances(current: ImageLayout, requested: ImageLayout)
    requires Transition(current, requested).Ok?
    ensures Stage(current) > 0 && Stage(requested) == Stage(current) + 1
  {
  }

  /** Any accepted sequence of requests climbs one stage per request; in
      particular at most two requests are ever accepted in a row. */
  lemma {:induction false} ApplyAdvances(current: ImageLayout, requests: seq<ImageLayout>)
    requires |requests| > 0 && Apply(current, requests).Ok?
    ensures Stage(current) > 0
    ensures Stage(Apply(current, requests).value) == Stage(current) + |requests|
    ensures |requests| <= 2
    decreases |requests|
  {
    TransitionAdvances(current, requests[0]);
    if |requests| > 1 {
      ApplyAdvances(requests[0], requests[1..]);
    }
  }

  /** From PREINITIALIZED, the upload sequence TRANSFER_DST_OPTIMAL then
      SHADER_READ_ONLY_OPTIMAL is accepted and ends ready for sampling; it is
      the only two-step sequence that is. */
  lemma UploadSequence(requests: seq<ImageLayout>)
    requires |requests| == 2
    ensures Apply(Preinitialized, requests).Ok? <==> requests == [TransferDstOptimal, ShaderReadOnlyOptimal]
    ensures Apply(Preinitialized, requests).Ok? ==> Apply(Preinitialized, requests).value == ShaderReadOnlyOptimal
  {
    var tail := requests[1..];
    assert tail == [requests[1]] && tail[1..] == [];
    assert Apply(Preinitialized, requests) ==
      (if Transition(Preinitialized, requests[0]).Err? then Err(UNKNOWN_TRANSITION) else Apply(requests[0], tail));
    assert Apply(requests[0], tail) ==
      (if Transition(requests[0], requests[1]).Err? then Err(UNKNOWN_TRANSITION) else Ok(requests[1]));
  }
}
