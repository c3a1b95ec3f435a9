/** The bookkeeping of the simple model renderer
    (src/SimpleModelRenderer.cpp): its list of model instances, the single
    command buffer it re-allocates and re-records after every change, the
    order of the draws it records, the frame size, and the depth-format
    choice. A model instance is known by an identity; the index counts of
    the meshes of its model are given by `meshesOf`. */
module SimpleModelRenderers {
  import opened Wrappers
  import opened CommandPools
  import VulkanApi

  type InstanceId = nat

  const DEPTH_FORMAT_MISSING := "Failed to find Depth Format for SimpleModelRenderer"

  // Vulkan 1.3 header values of the depth-format candidates and the feature
  // they must support with optimal tiling.
  const FORMAT_D32_SFLOAT: nat := 126
  const FORMAT_D24_UNORM_S8_UINT: nat := 129
  const FORMAT_D32_SFLOAT_S8_UINT: nat := 130
  const FORMAT_FEATURE_DEPTH_STENCIL_ATTACHMENT_BIT: VulkanApi.Flags := 0x200

  /** The candidates in order of preference. */
  const DEPTH_CANDIDATES: seq<nat> := [FORMAT_D32_SFLOAT_S8_UINT, FORMAT_D24_UNORM_S8_UINT, FORMAT_D32_SFLOAT]

  predicate DepthSupported(query: nat -> VulkanApi.FormatProperties, format: nat)
  {
    VulkanApi.IsFormatSupported(query(format), VulkanApi.Optimal, FORMAT_FEATURE_DEPTH_STENCIL_ATTACHMENT_BIT)
  }

  /** `FindFormats` (depth part): the first supported candidate, or an error
      when none is supported. */
  method FindDepthFormat(query: nat -> VulkanApi.FormatProperties) returns (r: Outcome<nat>)
    ensures r.Err? <==> forall i :: 0 <= i < |DEPTH_CANDIDATES| ==> !DepthSupported(query, DEPTH_CANDIDATES[i])
    ensures r.Err? ==> r.msg == DEPTH_FORMAT_MISSING
    ensures r.Ok? ==> exists i :: (0 <= i < |DEPTH_CANDIDATES| && r.value == DEPTH_CANDIDATES[i]
      && DepthSupported(query, r.value)
      && forall j :: 0 <= j < i ==> !DepthSupported(query, DEPTH_CANDIDATES[j]))
  {
    var depthFormat := VulkanApi.FindSupportedFormat(DEPTH_CANDIDATES, VulkanApi.Optimal,
      FORMAT_FEATURE_DEPTH_STENCIL_ATTACHMENT_BIT, query);
    if depthFormat == VulkanApi.FORMAT_UNDEFINED {
      return Err(DEPTH_FORMAT_MISSING);
    }
    return Ok(depthFormat);
  }

  /** One indexed draw: mesh `mesh` of instance `instance`, with its index
      count. */
  datatype Draw = Draw(instance: InstanceId, mesh: nat, indexCount: nat)

  /** The draws of one instance: its model's meshes in index order. */
  function MeshDraws(instance: InstanceId, indexCounts: seq<nat>): (ds: seq<Draw>)
    ensures |ds| == |indexCounts|
    ensures forall m :: 0 <= m < |ds| ==> ds[m] == Draw(instance, m, indexCounts[m])
  {
    seq(|indexCounts|, m requires 0 <= m < |indexCounts| => Draw(instance, m, indexCounts[m]))
  }

  /** The draws recorded for a list of instances: instance by instance in
      list order. */
  function Draws(instances: seq<InstanceId>, meshesOf: InstanceId -> seq<nat>): seq<Draw>
  {
    if |instances| == 0 then []
    else Draws(instances[..|instances| - 1], meshesOf) + MeshDraws(instances[|instances| - 1], meshesOf(instances[|instances| - 1]))
  }

  /** The draws of two lists one after the other are the draws of the
      first followed by those of the second. */
  lemma {:induction false} DrawsAppend(a: seq<InstanceId>, b: seq<InstanceId>, meshesOf: InstanceId -> seq<nat>)
    ensures Draws(a + b, meshesOf) == Draws(a, meshesOf) + Draws(b, meshesOf)
    decreases |b|
  {
    if |b| == 0 {
      assert a + b == a;
    } else {
      var b', last := b[..|b| - 1], b[|b| - 1];
      var tail := MeshDraws(last, meshesOf(last));
      assert (a + b)[..|a + b| - 1] == a + b';
      assert (a + b)[|a + b| - 1] == last;
      assert Draws(a + b, meshesOf) == Draws(a + b', meshesOf) + tail;
      DrawsAppend(a, b', meshesOf);
      assert Draws(b, meshesOf) == Draws(b', meshesOf) + tail;
      assert Draws(a, meshesOf) + Draws(b', meshesOf) + tail == Draws(a, meshesOf) + (Draws(b', meshesOf) + tail);
    }
  }

  /** The number of draws is the total number of meshes of the instances'
      models. */
  function MeshTotal(instances: seq<InstanceId>, meshesOf: InstanceId -> seq<nat>): nat
  {
    if |instances| == 0 then 0
    else MeshTotal(instances[..|instances| - 1], meshesOf) + |meshesOf(instances[|instances| - 1])|
  }

  lemma {:induction false} DrawCount(instances: seq<InstanceId>, meshesOf: InstanceId -> seq<nat>)
    ensures |Draws(instances, meshesOf)| == MeshTotal(instances, meshesOf)
  {
    if |instances| > 0 {
      DrawCount(instances[..|instances| - 1], meshesOf);
    }
  }

  /** `RemoveModelInstance` as written: the loop erases a match and still
      moves on to the next index, so the element that slid into the erased
      position is never examined. */
  function EraseAsWritten(s: seq<InstanceId>, x: InstanceId): seq<InstanceId>
  {
    if |s| == 0 then []
    else if s[0] != x then [s[0]] + EraseAsWritten(s[1..], x)
    else if |s| == 1 then []
    else [s[1]] + EraseAsWritten(s[2..], x)
  }

  /** What removing an instance means: every occurrence goes, the rest keep
      their order. */
  function Without(s: seq<InstanceId>, x: InstanceId): (r: seq<InstanceId>)
    ensures x !in r
    ensures forall y :: y in r <==> y in s && y != x
  {
    if |s| == 0 then []
    else if s[0] == x then Without(s[1..], x)
    else [s[0]] + Without(s[1..], x)
  }

  /** The as-written removal keeps every other instance, in order: dropping
      the survivors that match from its result gives `Without`. */
  lemma {:induction false} EraseKeepsOthers(s: seq<InstanceId>, x: InstanceId)
    ensures Without(EraseAsWritten(s, x), x) == Without(s, x)
  {
    if |s| == 0 {
    } else if s[0] != x {
      EraseKeepsOthers(s[1..], x);
      assert ([s[0]] + EraseAsWritten(s[1..], x))[1..] == EraseAsWritten(s[1..], x);
    } else if |s| == 1 {
    } else {
      EraseKeepsOthers(s[2..], x);
      assert s[1..][1..] == s[2..];
      assert ([s[1]] + EraseAsWritten(s[2..], x))[1..] == EraseAsWritten(s[2..], x);
    }
  }

  /** The as-written removal is right exactly when no match directly
      follows another. */
  predicate NoAdjacentMatches(s: seq<InstanceId>, x: InstanceId)
  {
    forall i :: 0 <= i < |s| - 1 ==> !(s[i] == x && s[i + 1] == x)
  }

  lemma {:induction false} EraseCorrectWithoutAdjacentMatches(s: seq<InstanceId>, x: InstanceId)
    requires NoAdjacentMatches(s, x)
    ensures EraseAsWritten(s, x) == Without(s, x)
  {
    if |s| == 0 {
    } else if s[0] != x {
      assert NoAdjacentMatches(s[1..], x) by {
        forall i | 0 <= i < |s[1..]| - 1
          ensures !(s[1..][i] == x && s[1..][i + 1] == x)
        {
          assert s[1..][i] == s[i + 1] && s[1..][i + 1] == s[i + 2];
        }
      }
      EraseCorrectWithoutAdjacentMatches(s[1..], x);
    } else if |s| == 1 {
    } else {
      assert s[1] != x by {
        assert !(s[0] == x && s[1] == x);
      }
      assert NoAdjacentMatches(s[2..], x) by {
        forall i | 0 <= i < |s[2..]| - 1
          ensures !(s[2..][i] == x && s[2..][i + 1] == x)
        {
          assert s[2..][i] == s[i + 2] && s[2..][i + 1] == s[i + 3];
        }
      }
      EraseCorrectWithoutAdjacentMatches(s[2..], x);
      assert s[1..][1..] == s[2..];
    }
  }

  /** Two adjacent copies of an instance: one survives. */
  lemma AdjacentMatchSurvives(x: InstanceId)
    ensures EraseAsWritten([x, x], x) == [x]
    ensures Without([x, x], x) == []
  {
    assert [x, x][2..] == [];
    assert [x, x][1..] == [x];
    assert [x][1..] == [];
    assert Without([x], x) == Without([], x);
  }

  /** One step of the as-written loop at index `i`: a kept element joins
      the examined prefix; an erased one lets its successor (if any) join
      the prefix unexamined. */
  lemma EraseStep(s: seq<InstanceId>, i: nat, x: InstanceId)
    requires i < |s|
    ensures s[i] != x ==> s[..i + 1] + EraseAsWritten(s[i + 1..], x) == s[..i] + EraseAsWritten(s[i..], x)
    ensures s[i] == x && i + 1 < |s| ==>
      var t := s[..i] + s[i + 1..];
      t[..i + 1] + EraseAsWritten(t[i + 1..], x) == s[..i] + EraseAsWritten(s[i..], x)
    ensures s[i] == x && i + 1 == |s| ==> s[..i] == s[..i] + EraseAsWritten(s[i..], x)
  {
    if s[i] != x {
      assert s[..i + 1] == s[..i] + [s[i]];
      assert s[i..][1..] == s[i + 1..];
    } else if i + 1 < |s| {
      var t := s[..i] + s[i + 1..];
      assert t[..i + 1] == s[..i] + [s[i + 1]];
      assert t[i + 1..] == s[i + 2..];
      assert s[i..][1..][1..] == s[i + 2..];
    } else {
      assert s[i..] == [x];
    }
  }

  class SimpleModelRenderer {
    var frameWidth: nat
    var frameHeight: nat
    var depthFormat: nat
    var instances: seq<InstanceId>
    const pool: CommandPool
    var commandBuffer: CommandBuffer
    /** The draws recorded into `commandBuffer`. */
    var recorded: seq<Draw>
    /** The mesh index counts of each instance's model. */
    const meshesOf: InstanceId -> seq<nat>

    /** The pool holds exactly the one command buffer in use, which records
        the draws of the current instances. */
    predicate Valid()
      reads this, pool
    {
      pool.buffers == [commandBuffer] && recorded == Draws(instances, meshesOf)
    }

    /** The constructor with the depth format `FindFormats` chose: no
        instances, and a freshly allocated and recorded command buffer. */
    constructor(width: nat, height: nat, depthFormat: nat, meshesOf: InstanceId -> seq<nat>, handle: CommandBuffer)
      ensures fresh(pool)
      ensures frameWidth == width && frameHeight == height && this.depthFormat == depthFormat
      ensures instances == [] && commandBuffer == handle
      ensures Valid()
    {
      frameWidth := width;
      frameHeight := height;
      this.depthFormat := depthFormat;
      this.meshesOf := meshesOf;
      instances := [];
      pool := new CommandPool();
      new;
      CreateCommandBuffer(handle);
      RecordCommandBuffer();
    }

    /** `CreateCommandBuffer`: allocates one buffer and uses the pool's
        first. */
    method CreateCommandBuffer(handle: CommandBuffer)
      requires pool.buffers == []
      modifies this, pool
      ensures pool.buffers == [handle] && commandBuffer == handle
      ensures instances == old(instances) && recorded == old(recorded)
      ensures frameWidth == old(frameWidth) && frameHeight == old(frameHeight) && depthFormat == old(depthFormat)
    {
      pool.AllocateBuffers(1, [handle]);
      commandBuffer := pool.GetBuffer(0);
    }

    /** `RecordCommandBuffer`: one draw per mesh, instance by instance in
        list order and mesh by mesh in index order. */
    method RecordCommandBuffer()
      modifies this
      ensures recorded == Draws(instances, meshesOf)
      ensures instances == old(instances) && commandBuffer == old(commandBuffer)
      ensures frameWidth == old(frameWidth) && frameHeight == old(frameHeight) && depthFormat == old(depthFormat)
    {
      recorded := [];
      for k := 0 to |instances|
        invariant instances == old(instances) && commandBuffer == old(commandBuffer)
        invariant recorded == Draws(instances[..k], meshesOf)
        invariant frameWidth == old(frameWidth) && frameHeight == old(frameHeight) && depthFormat == old(depthFormat)
      {
        var modelInstance := instances[k];
        var meshes := meshesOf(modelInstance);
        ghost var before := recorded;
        for i := 0 to |meshes|
          invariant recorded == before + MeshDraws(modelInstance, meshes)[..i]
          invariant instances == old(instances) && commandBuffer == old(commandBuffer)
          invariant frameWidth == old(frameWidth) && frameHeight == old(frameHeight) && depthFormat == old(depthFormat)
        {
          recorded := recorded + [Draw(modelInstance, i, meshes[i])];
          assert MeshDraws(modelInstance, meshes)[..i + 1] == MeshDraws(modelInstance, meshes)[..i] + [Draw(modelInstance, i, meshes[i])];
        }
        assert MeshDraws(modelInstance, meshes)[..|meshes|] == MeshDraws(modelInstance, meshes);
        assert instances[..k + 1][..k] == instances[..k];
      }
      assert instances[..|instances|] == instances;
    }

    /** `ResizeFrame`: stores the new size and rebuilds the command
        buffer. */
    method ResizeFrame(width: nat, height: nat, handle: CommandBuffer)
      modifies this, pool
      ensures frameWidth == width && frameHeight == height
      ensures instances == old(instances) && commandBuffer == handle
      ensures Valid()
    {
      frameWidth := width;
      frameHeight := height;
      var _ := pool.FreeBuffers();
      CreateCommandBuffer(handle);
      RecordCommandBuffer();
    }

    /** `AddModelInstance`: appends the instance; the new command buffer
        draws the earlier instances as before and then the new one. */
    method AddModelInstance(instance: InstanceId, handle: CommandBuffer)
      modifies this, pool
      ensures instances == old(instances) + [instance]
      ensures commandBuffer == handle && Valid()
      ensures recorded == Draws(old(instances), meshesOf) + MeshDraws(instance, meshesOf(instance))
      ensures frameWidth == old(frameWidth) && frameHeight == old(frameHeight)
    {
      instances := instances + [instance];
      var _ := pool.FreeBuffers();
      CreateCommandBuffer(handle);
      RecordCommandBuffer();
      assert instances[..|instances| - 1] == old(instances);
    }

    /** The loop of `RemoveModelInstance` as written: it erases a match
        and increments the index regardless. */
    method EraseMatchesAsWritten(instance: InstanceId)
      modifies this
      ensures instances == EraseAsWritten(old(instances), instance)
      ensures frameWidth == old(frameWidth) && frameHeight == old(frameHeight)
      ensures commandBuffer == old(commandBuffer) && recorded == old(recorded) && depthFormat == old(depthFormat)
    {
      var i := 0;
      while i < |instances|
        invariant i <= |instances| + 1
        invariant i <= |instances| ==>
          instances[..i] + EraseAsWritten(instances[i..], instance) == EraseAsWritten(old(instances), instance)
        invariant i > |instances| ==> instances == EraseAsWritten(old(instances), instance)
        invariant frameWidth == old(frameWidth) && frameHeight == old(frameHeight)
        invariant commandBuffer == old(commandBuffer) && recorded == old(recorded) && depthFormat == old(depthFormat)
        decreases |instances| + 1 - i
      {
        EraseStep(instances, i, instance);
        if instances[i] == instance {
          instances := instances[..i] + instances[i + 1..];
        }
        i := i + 1;
      }
      if i == |instances| {
        assert instances[..i] == instances;
      }
    }

    /** `RemoveModelInstance` as written: the erase loop, then a rebuilt
        command buffer. */
    method RemoveModelInstance(instance: InstanceId, handle: CommandBuffer)
      modifies this, pool
      ensures instances == EraseAsWritten(old(instances), instance)
      ensures commandBuffer == handle && Valid()
      ensures frameWidth == old(frameWidth) && frameHeight == old(frameHeight)
    {
      EraseMatchesAsWritten(instance);
      var _ := pool.FreeBuffers();
      CreateCommandBuffer(handle);
      RecordCommandBuffer();
    }

    /** `RemoveModelInstance` with the index advanced only past instances
        that stay: every occurrence is removed. */
    method RemoveModelInstanceIntended(instance: InstanceId, handle: CommandBuffer)
      modifies this, pool
      ensures instances == Without(old(instances), instance)
      ensures instance !in instances
      ensures commandBuffer == handle && Valid()
      ensures frameWidth == old(frameWidth) && frameHeight == old(frameHeight)
    {
      var i := 0;
      while i < |instances|
        invariant i <= |instances|
        invariant instances[..i] + Without(instances[i..], instance) == Without(old(instances), instance)
        invariant frameWidth == old(frameWidth) && frameHeight == old(frameHeight)
        decreases |instances| - i
      {
        if instances[i] == instance {
          ghost var s := instances;
          instances := instances[..i] + instances[i + 1..];
          assert instances[..i] == s[..i];
          assert instances[i..] == s[i..][1..];
        } else {
          assert instances[..i + 1] == instances[..i] + [instances[i]];
          assert instances[i..][1..] == instances[i + 1..];
          i := i + 1;
        }
      }
      assert instances[..i] == instances;
      var _ := pool.FreeBuffers();
      CreateCommandBuffer(handle);
      RecordCommandBuffer();
    }
  }

  /** The constructor as the source runs it: `FindFormats` first, which
      fails when no depth format is supported. */
  method NewRenderer(width: nat, height: nat, query: nat -> VulkanApi.FormatProperties,
                     meshesOf: InstanceId -> seq<nat>, handle: CommandBuffer)
    returns (r: Outcome<SimpleModelRenderer>)
    ensures r.Err? <==> forall i :: 0 <= i < |DEPTH_CANDIDATES| ==> !DepthSupported(query, DEPTH_CANDIDATES[i])
    ensures r.Ok? ==>
      fresh(r.value) && r.value.Valid() && r.value.instances == [] && DepthSupported(query, r.value.depthFormat)
  {
    var depthFormat :- FindDepthFormat(query);
    var renderer := new SimpleModelRenderer(width, height, depthFormat, meshesOf, handle);
    return Ok(renderer);
  }
}
