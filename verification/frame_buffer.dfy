/** The frame buffer a clip workflow owns and the memory-video-output
    geometry it configures on the media (ClipWorkflow constructor and setVmem). */
module FrameBuffer {
  import opened WorkflowTypes

  /** Bytes per pixel the buffer is allocated for. */
  const AllocatedBytesPerPixel: nat := 4

  /** Bytes per pixel of the RV24 chroma the decoder is asked to write. */
  const Rv24BytesPerPixel: nat := 3

  /** Capacity of the buffer allocated at construction: VIDEOHEIGHT * VIDEOWIDTH * 4. */
  function Capacity(g: Geometry): nat
  {
    g.height * g.width * AllocatedBytesPerPixel
  }

  /** Bytes the decoder writes for one frame under a configuration: one pitch per row. */
  function FrameBytes(c: VmemConfig): nat
  {
    c.pitch * c.height
  }

  /** setVmem, geometry only: RV24 frames of the maximum geometry whose rows
      are exactly wide enough for three bytes per pixel; such a frame always
      fits in the buffer allocated for that geometry, with one byte per pixel
      to spare. */
  function SetVmem(g: Geometry): (c: VmemConfig)
    ensures c.chroma == RV24 && c.width == g.width && c.height == g.height
    ensures c.pitch == c.width * Rv24BytesPerPixel
    ensures FrameBytes(c) <= Capacity(g)
    ensures Capacity(g) - FrameBytes(c) == g.width * g.height
  {
    var c := VmemConfig(RV24, g.width, g.height, g.width * Rv24BytesPerPixel);
    assert FrameBytes(c) == 3 * (g.width * g.height);
    assert Capacity(g) == 4 * (g.width * g.height);
    c
  }
}
