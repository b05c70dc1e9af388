/**
 * Skinner's AnimationKernelSet: a material wrapping a set of GPU kernels and a double buffer of
 * render textures, two slots per buffer kind. Each frame reads the "last" slot of a kind and
 * renders into its "working" slot; SwapBuffers exchanges the two roles. Textures, shaders and
 * materials are opaque engine objects; a texture only records which kernel last rendered into it.
 */
module SkinnerInternals {
  import opened Wrappers

  /** The slot a kind's last-frame buffer lives in: `swapFlag ? index + half : index`. */
  function LastSlot(index: nat, half: nat, swapFlag: bool): (s: nat)
    requires index < half
    ensures s < 2 * half
  {
    if swapFlag then index + half else index
  }

  /** The slot a kind's working buffer lives in: `swapFlag ? index : index + half`. */
  function WorkingSlot(index: nat, half: nat, swapFlag: bool): (s: nat)
    requires index < half
    ensures s < 2 * half
    ensures s != LastSlot(index, half, swapFlag)
    ensures s == LastSlot(index, half, swapFlag) + half || s + half == LastSlot(index, half, swapFlag)
    ensures s == LastSlot(index, half, !swapFlag)
  {
    if swapFlag then index else index + half
  }

  /** Distinct kinds never share a slot, whatever role each slot plays. */
  lemma SlotsOfKindsDisjoint(i: nat, j: nat, half: nat, swapFlag: bool)
    requires i < half && j < half && i != j
    ensures LastSlot(i, half, swapFlag) != LastSlot(j, half, swapFlag)
    ensures LastSlot(i, half, swapFlag) != WorkingSlot(j, half, swapFlag)
    ensures WorkingSlot(i, half, swapFlag) != WorkingSlot(j, half, swapFlag)
  {
  }

  /** A UnityEngine.Shader: an opaque asset. */
  class Shader {
  }

  /** A UnityEngine.Material built from a shader. */
  class Material {
    const shader: Shader

    constructor (shader: Shader)
      ensures this.shader == shader
    {
      this.shader := shader;
    }
  }

  /** A RenderTexture of a given size, remembering the kernel (pass index) last rendered into it. */
  class RenderTexture {
    const width: int
    const height: int
    var lastKernel: Option<int>

    constructor (width: int, height: int)
      ensures this.width == width && this.height == height && lastKernel == None
    {
      this.width := width;
      this.height := height;
      lastKernel := None;
    }
  }

  class AnimationKernelSet<K, B> {
    const shader: Shader
    const kernelIndex: K -> int
    const bufferIndex: B -> int
    /** The number of buffer kinds (the length of the buffer enum). */
    const kinds: nat
    const buffers: array<RenderTexture?>
    var material: Material?
    var swapFlag: bool
    var ready: bool

    /**
     * The array holds two slots per kind; a set is ready exactly when its material and every slot
     * are allocated, and no texture sits in two slots.
     */
    predicate Valid()
      reads this, buffers
    {
      && buffers.Length == 2 * kinds
      && (ready <==> material != null)
      && (forall i :: 0 <= i < buffers.Length ==> (buffers[i] != null <==> ready))
      && (forall i, j :: 0 <= i < j < buffers.Length && buffers[i] != null ==> buffers[i] != buffers[j])
    }

    /** The constructor only allocates the slot array, two slots per kind, all empty. */
    constructor (shader: Shader, kernelIndex: K -> int, bufferIndex: B -> int, kinds: nat)
      ensures Valid() && fresh(buffers)
      ensures this.shader == shader && this.kernelIndex == kernelIndex && this.bufferIndex == bufferIndex
      ensures this.kinds == kinds && buffers.Length == 2 * kinds
      ensures !ready && !swapFlag && material == null
    {
      this.shader := shader;
      this.kernelIndex := kernelIndex;
      this.bufferIndex := bufferIndex;
      this.kinds := kinds;
      buffers := new RenderTexture?[2 * kinds](_ => null);
      material := null;
      swapFlag := false;
      ready := false;
    }

    /** A buffer enum value whose index the delegate maps into the enum's range. */
    predicate IsBuffer(b: B)
    {
      0 <= bufferIndex(b) < kinds
    }

    /** GetLastBuffer(buffer): the texture rendered in the last frame. */
    function GetLastBuffer(b: B): (r: RenderTexture?)
      requires Valid() && IsBuffer(b)
      reads this, buffers
      ensures r == buffers[LastSlot(bufferIndex(b), kinds, swapFlag)]
      ensures r != null <==> ready
    {
      var index := bufferIndex(b);
      buffers[if swapFlag then index + buffers.Length / 2 else index]
    }

    /** GetWorkingBuffer(buffer): the texture the current frame renders into, never the last one. */
    function GetWorkingBuffer(b: B): (r: RenderTexture?)
      requires Valid() && IsBuffer(b)
      reads this, buffers
      ensures r == buffers[WorkingSlot(bufferIndex(b), kinds, swapFlag)]
      ensures r != null <==> ready
      ensures ready ==> r != GetLastBuffer(b)
    {
      var index := bufferIndex(b);
      buffers[if swapFlag then index else index + buffers.Length / 2]
    }

    /**
     * Setup(width, height): does nothing on a ready set; otherwise makes the material and a fresh
     * texture of the given size for every slot, and starts with the unswapped mapping.
     */
    method Setup(width: int, height: int)
      requires Valid()
      modifies this, buffers
      ensures Valid()
      ensures old(ready) ==>
        material == old(material) && swapFlag == old(swapFlag) && ready && buffers[..] == old(buffers[..])
      ensures !old(ready) ==> ready && !swapFlag && material != null && fresh(material) && material.shader == shader
      ensures !old(ready) ==> forall i :: 0 <= i < buffers.Length ==>
        buffers[i] != null && fresh(buffers[i]) && buffers[i].width == width && buffers[i].height == height
        && buffers[i].lastKernel == None
    {
      if ready {
        return;
      }
      material := new Material(shader);
      var i := 0;
      while i < buffers.Length
        modifies buffers
        invariant 0 <= i <= buffers.Length
        invariant forall j :: 0 <= j < i ==>
          buffers[j] != null && fresh(buffers[j]) && buffers[j].width == width && buffers[j].height == height
          && buffers[j].lastKernel == None
        invariant forall j :: i <= j < buffers.Length ==> buffers[j] == null
        invariant forall j, k :: 0 <= j < k < i ==> buffers[j] != buffers[k]
      {
        var rt := new RenderTexture(width, height);
        buffers[i] := rt;
        i := i + 1;
      }
      swapFlag := false;
      ready := true;
    }

    /** Release(): does nothing on a set that is not ready; otherwise drops the material and every texture. */
    method Release()
      requires Valid()
      modifies this, buffers
      ensures Valid() && !ready && material == null && swapFlag == old(swapFlag)
      ensures forall i :: 0 <= i < buffers.Length ==> buffers[i] == null
      ensures !old(ready) ==> buffers[..] == old(buffers[..])
    {
      if !ready {
        return;
      }
      material := null;
      var i := 0;
      while i < buffers.Length
        modifies buffers
        invariant 0 <= i <= buffers.Length
        invariant forall j :: 0 <= j < i ==> buffers[j] == null
        invariant forall j :: i <= j < buffers.Length ==> buffers[j] == old(buffers[j])
      {
        buffers[i] := null;
        i := i + 1;
      }
      ready := false;
    }

    /**
     * Invoke(kernel, buffer): renders with the given kernel into the working texture of `buffer`,
     * and so changes that texture alone. It needs the material made by Setup.
     */
    method Invoke(k: K, b: B)
      requires Valid() && IsBuffer(b) && ready
      modifies GetWorkingBuffer(b)
      ensures GetWorkingBuffer(b).lastKernel == Some(kernelIndex(k))
    {
      var target := GetWorkingBuffer(b);
      target.lastKernel := Some(kernelIndex(k));
    }

    /** SwapBuffers(): every kind's last and working textures exchange roles. */
    method SwapBuffers()
      requires Valid()
      modifies this
      ensures Valid() && swapFlag == !old(swapFlag)
      ensures ready == old(ready) && material == old(material)
      ensures forall b :: IsBuffer(b) ==>
        && GetLastBuffer(b) == buffers[WorkingSlot(bufferIndex(b), kinds, old(swapFlag))]
        && GetWorkingBuffer(b) == buffers[LastSlot(bufferIndex(b), kinds, old(swapFlag))]
    {
      swapFlag := !swapFlag;
    }
  }
}
