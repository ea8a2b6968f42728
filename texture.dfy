/**
 * The WebGPU texture object
 * (Siv3D/src/Siv3D-Platform/WebGPU/Siv3D/Texture/WebGPU/WebGPUTexture.cpp).
 *
 * A WebGPUTexture has a usage type (Default, Dynamic, Render, MSRender), a
 * format, a size, the native texture handles, and the flags `initialized` and
 * `hasDepth`. The device is a call log: every `CreateTexture`, every
 * buffer-to-texture copy submitted by `copyToTexture` and every `WriteTexture`
 * is appended to `Device.calls`; native handles are drawn from a counter.
 *
 * Pixel contents of images are not modelled, only their dimensions and the
 * layout of each upload; the texels gathered by `fillRegion` from a source
 * buffer are modelled exactly.
 */
module WebGPU {
  import opened Rectangles

  datatype TextureFormat =
    | Unknown
    | R8G8B8A8_Unorm | R8G8B8A8_Unorm_SRGB
    | R16G16_Float | R32_Float | R10G10B10A2_Unorm | R11G12B10_UFloat
    | R16G16B16A16_Float | R32G32_Float | R32G32B32A32_Float

  /** TextureFormat::pixelSize(): bytes per pixel. */
  function PixelSize(f: TextureFormat): nat {
    match f
    case Unknown => 0
    case R16G16B16A16_Float => 8
    case R32G32_Float => 8
    case R32G32B32A32_Float => 16
    case _ => 4
  }

  /** The two formats the image paths (fill(src), fillRegion(src), readRT(Image&)) accept. */
  predicate IsRGBA8(f: TextureFormat) {
    f == R8G8B8A8_Unorm || f == R8G8B8A8_Unorm_SRGB
  }

  datatype TextureDesc = Unmipped | UnmippedSRGB | Mipped | MippedSRGB

  /** detail::IsSRGB */
  predicate IsSRGB(desc: TextureDesc) {
    desc == UnmippedSRGB || desc == MippedSRGB
  }

  datatype TextureType = Default | Dynamic | Render | MSRender

  predicate IsRenderType(t: TextureType) {
    t == Render || t == MSRender
  }

  /** An Image (colour pixels of 4 bytes, rows packed). */
  datatype Image = Image(width: nat, height: nat) {
    function Size(): Point {
      Point(width, height)
    }

    function Stride(): nat {
      width * 4
    }
  }

  datatype GridKind = FloatGrid | Float2Grid | Float4Grid

  /** A Grid<float>, Grid<Float2> or Grid<Float4>. */
  datatype Grid = Grid(kind: GridKind, width: nat, height: nat) {
    function Size(): Point {
      Point(width, height)
    }
  }

  /** The only format the Render constructor for a grid of this kind accepts. */
  function GridFormat(kind: GridKind): TextureFormat {
    match kind
    case FloatGrid => R32_Float
    case Float2Grid => R32G32_Float
    case Float4Grid => R32G32B32A32_Float
  }

  /** sizeof(float), sizeof(Float2), sizeof(Float4) */
  function ElementSize(kind: GridKind): (n: nat)
    ensures n == PixelSize(GridFormat(kind))
  {
    match kind
    case FloatGrid => 4
    case Float2Grid => 8
    case Float4Grid => 16
  }

  /** The destination containers of the four readRT overloads; only their size is modelled. */
  datatype ReadTarget = ImageTarget | GridTarget(kind: GridKind)

  datatype Surface = Surface(target: ReadTarget, width: int, height: int)

  /** The texture format a read-back destination requires. */
  predicate Readable(target: ReadTarget, f: TextureFormat) {
    match target
    case ImageTarget => IsRGBA8(f)
    case GridTarget(kind) => f == GridFormat(kind)
  }

  // ---------------------------------------------------------------------------
  // The device as a call log

  /** A native texture handle; 0 is the null handle. */
  type Handle = nat

  datatype GpuFormat = ColorFormat(format: TextureFormat) | Depth32Float

  datatype GpuTextureDesc = GpuTextureDesc(width: int, height: int, format: GpuFormat, mipLevelCount: nat, sampleCount: nat)

  /** The descriptor of a colour texture. */
  function ColorDesc(size: Point, format: TextureFormat, mipLevelCount: nat, sampleCount: nat): GpuTextureDesc {
    GpuTextureDesc(size.x, size.y, ColorFormat(format), mipLevelCount, sampleCount)
  }

  /** The descriptor of a depth texture. */
  function DepthDesc(size: Point, sampleCount: nat): GpuTextureDesc {
    GpuTextureDesc(size.x, size.y, Depth32Float, 1, sampleCount)
  }

  /** The data handed to WriteTexture: the colour buffer bytes, or 32-bit texels. */
  datatype Payload = Bytes(bytes: seq<int>) | Texels(texels: seq<int>)

  datatype GpuCall =
    | CreateTexture(desc: GpuTextureDesc, texture: Handle)
    | CopyBufferToTexture(texture: Handle, mipLevel: nat, extent: Point, bytesPerRow: int, rowsPerImage: int, bufferSize: nat)
    | WriteTexture(texture: Handle, origin: Point, bytesPerRow: int, rowsPerImage: int, extent: Point, data: Payload)

  class Device {
    ghost var calls: seq<GpuCall>
    var nextTexture: Handle

    /** Native handles start at 1, so 0 stays the null handle. */
    predicate Valid()
      reads this
    {
      nextTexture >= 1
    }

    constructor ()
      ensures Valid() && calls == [] && nextTexture == 1
    {
      calls := [];
      nextTexture := 1;
    }

    /** wgpu::Device::CreateTexture */
    method CreateTexture(desc: GpuTextureDesc) returns (texture: Handle)
      modifies this
      ensures texture == old(nextTexture) && nextTexture == old(nextTexture) + 1
      ensures calls == old(calls) + [GpuCall.CreateTexture(desc, texture)]
    {
      texture := nextTexture;
      nextTexture := nextTexture + 1;
      calls := calls + [GpuCall.CreateTexture(desc, texture)];
    }

    /** Queue submission of a copy command, and Queue::WriteTexture. */
    method Submit(call: GpuCall)
      requires !call.CreateTexture?
      modifies this
      ensures calls == old(calls) + [call] && nextTexture == old(nextTexture)
    {
      calls := calls + [call];
    }
  }

  // ---------------------------------------------------------------------------
  // Upload layout

  const U32Modulus := 0x1_0000_0000

  /** static_cast<uint32>(stride * height): the staging buffer size, computed in 32-bit unsigned arithmetic. */
  function StagingBufferSize(stride: int, height: int): (n: nat)
    ensures n < U32Modulus
    ensures 0 <= stride * height < U32Modulus ==> n == stride * height
  {
    (stride * height) % U32Modulus
  }

  /**
   * The command copyToTexture submits: a staging buffer of stride * height
   * bytes copied into `mipLevel`, with rows `stride` bytes apart, `height`
   * rows per image, and the given extent.
   */
  function Upload(texture: Handle, extent: Point, mipLevel: nat, stride: int): (c: GpuCall)
    ensures c.CopyBufferToTexture? && c.texture == texture && c.mipLevel == mipLevel && c.extent == extent
    ensures c.bytesPerRow == stride && c.rowsPerImage == extent.y
    ensures 0 <= stride * extent.y < U32Modulus ==> c.bufferSize == stride * extent.y
  {
    CopyBufferToTexture(texture, mipLevel, extent, stride, extent.y, StagingBufferSize(stride, extent.y))
  }

  /** A width in pixels whose 4-byte rows meet WebGPU's 256-byte bytesPerRow alignment. */
  predicate RowAligned(widthInPixels: int) {
    widthInPixels % 64 == 0
  }

  /** The width of the staging image for an unaligned width: ((w / 64) + 1) * 64. */
  function PaddedWidth(w: nat): (r: nat)
    requires !RowAligned(w)
    ensures RowAligned(r) && w < r < w + 64
  {
    (w / 64 + 1) * 64
  }

  /** The padded width is the least multiple of 64 that holds the row. */
  lemma PaddedWidthIsLeast(w: nat, m: nat)
    requires !RowAligned(w) && RowAligned(m) && w <= m
    ensures PaddedWidth(w) <= m
  {
    var q := m / 64;
    assert m == q * 64;
    assert w != m;
    assert w / 64 * 64 <= w < q * 64;
    assert w / 64 < q;
  }

  /** The width of the rows an image is uploaded with: its own if aligned, the padded one otherwise. */
  function StagingWidth(w: nat): (r: nat)
    ensures RowAligned(r) && w <= r < w + 64
    ensures RowAligned(w) <==> r == w
  {
    if RowAligned(w) then w else PaddedWidth(w)
  }

  /**
   * The upload the image constructors issue for one image: an aligned image
   * goes up with `alignedStride` into `alignedLevel`; otherwise it is copied
   * into a padded staging image whose own stride is used, into `paddedLevel`.
   * The copy extent is the image's size either way.
   */
  function ImageUpload(texture: Handle, image: Image, alignedLevel: nat, alignedStride: nat, paddedLevel: nat): (c: GpuCall)
    ensures c.CopyBufferToTexture? && c.texture == texture && c.extent == image.Size() && c.rowsPerImage == image.height
    ensures RowAligned(image.width) ==> c.mipLevel == alignedLevel && c.bytesPerRow == alignedStride
    ensures !RowAligned(image.width) ==>
      (c.mipLevel == paddedLevel && c.bytesPerRow == StagingWidth(image.width) * 4 && c.bytesPerRow > image.Stride())
  {
    if RowAligned(image.width) then Upload(texture, image.Size(), alignedLevel, alignedStride)
    else Upload(texture, image.Size(), paddedLevel, Image(PaddedWidth(image.width), image.height).Stride())
  }

  /**
   * Uploading an image with its own stride always meets the 256-byte
   * bytesPerRow rule of the WebGPU GPUImageCopyBuffer layout: the rows are
   * the least multiple of 64 pixels that holds the image width, and the copy
   * extent stays the image size.
   */
  lemma ImageUploadLayout(texture: Handle, image: Image, level: nat, paddedLevel: nat)
    ensures var c := ImageUpload(texture, image, level, image.Stride(), paddedLevel);
      && c.CopyBufferToTexture?
      && c.extent == image.Size() && c.rowsPerImage == image.height
      && c.bytesPerRow == StagingWidth(image.width) * 4
      && c.bytesPerRow % 256 == 0
      && c.bytesPerRow >= image.Stride()
      && c.mipLevel == (if RowAligned(image.width) then level else paddedLevel)
  {
    var sw := StagingWidth(image.width);
    assert sw == sw / 64 * 64;
    assert sw * 4 == (sw / 64) * 256;
  }

  /**
   * The uploads of the mip levels as the mipmapped constructor writes them:
   * level i + 1 for mips[i], with the BASE image's stride on the aligned path.
   */
  function MipUploadsAsWritten(texture: Handle, base: Image, mips: seq<Image>): (cs: seq<GpuCall>)
    ensures |cs| == |mips|
    ensures forall i :: 0 <= i < |mips| && RowAligned(mips[i].width) ==> cs[i].CopyBufferToTexture? && cs[i].bytesPerRow == base.Stride()
  {
    seq(|mips|, i requires 0 <= i < |mips| => ImageUpload(texture, mips[i], i + 1, base.Stride(), i + 1))
  }

  /**
   * As written, an aligned mip level meets the 256-byte bytesPerRow rule
   * exactly when the base image's stride does.
   */
  lemma AlignedMipRowRule(texture: Handle, base: Image, mips: seq<Image>, i: nat)
    requires i < |mips| && RowAligned(mips[i].width)
    ensures MipUploadsAsWritten(texture, base, mips)[i].bytesPerRow % 256 == 0 <==> RowAligned(base.width)
  {
    var q := base.width / 64;
    var r := base.width % 64;
    assert base.Stride() == q * 256 + r * 4;
    assert base.Stride() % 256 == r * 4;
  }

  /**
   * A base image 129 pixels wide with a 64-pixel mip: the mip is staged with
   * 516 bytes per row, which is not a multiple of 256.
   */
  lemma MipStrideBreaksRowRule(texture: Handle)
    ensures var c := MipUploadsAsWritten(texture, Image(129, 128), [Image(64, 64)])[0];
      c.bytesPerRow == 516 && c.bytesPerRow % 256 != 0
  {
  }

  /**
   * The uploads of the mip levels with each mip's own stride, which is what
   * the mipmapped constructor evidently intends.
   */
  function MipUploads(texture: Handle, mips: seq<Image>): (cs: seq<GpuCall>)
    ensures |cs| == |mips|
  {
    seq(|mips|, i requires 0 <= i < |mips| => ImageUpload(texture, mips[i], i + 1, mips[i].Stride(), i + 1))
  }

  /**
   * Every corrected mip upload meets the 256-byte bytesPerRow rule, copies
   * the mip's own extent into level i + 1, and stages at least the mip's rows.
   */
  lemma MipUploadsLayout(texture: Handle, mips: seq<Image>, i: nat)
    requires i < |mips|
    ensures var c := MipUploads(texture, mips)[i];
      && c.mipLevel == i + 1 && c.extent == mips[i].Size()
      && c.bytesPerRow % 256 == 0 && c.bytesPerRow >= mips[i].Stride()
  {
    ImageUploadLayout(texture, mips[i], i + 1, i + 1);
  }

  /**
   * As written, the mipmapped constructor passes the BASE image's stride for
   * an aligned mip level. For a mip narrower than the base the staging buffer
   * is then larger than the mip's pixel data, which memcpy reads past the end of.
   */
  lemma AlignedMipUsesBaseStride(texture: Handle, base: Image, mips: seq<Image>, i: nat)
    requires i < |mips| && RowAligned(mips[i].width)
    requires mips[i].width < base.width && mips[i].height > 0
    requires base.Stride() * mips[i].height < U32Modulus
    ensures MipUploadsAsWritten(texture, base, mips)[i].bytesPerRow == base.Stride()
    ensures MipUploadsAsWritten(texture, base, mips)[i].bufferSize > mips[i].Stride() * mips[i].height
  {
    var m := mips[i];
    assert base.Stride() * m.height > m.Stride() * m.height by {
      assert base.Stride() > m.Stride();
    }
  }

  // ---------------------------------------------------------------------------
  // The gather of fillRegion(src)

  /** p * a <= p * b for a <= b. */
  lemma MulMonotone(p: nat, a: int, b: int)
    requires a <= b
    ensures p * a <= p * b
  {
    assert p * b == p * a + p * (b - a);
  }

  /** Where position (i, j) of a w-wide packing of h rows lies. */
  lemma PackedIndex(w: nat, h: nat, i: nat, j: nat)
    requires i < w && j < h
    ensures j * w + i < w * h
    ensures j < h - 1 ==> j * w + i < w * (h - 1)
    ensures j == h - 1 ==> j * w + i - w * (h - 1) == i
  {
    assert (j + 1) * w == j * w + w;
    MulMonotone(w, j + 1, h);
    if j < h - 1 {
      MulMonotone(w, j + 1, h - 1);
    }
  }

  /**
   * The texels gathered by fillRegion(src) for a region (x, y, w, h) of a
   * source whose rows are `pitch` texels apart (stride / sizeof(uint32)):
   * the rows y .. y + h - 1, each the w texels from column x, packed.
   */
  function Gathered(src: seq<int>, pitch: nat, x: nat, y: nat, w: nat, h: nat): (g: seq<int>)
    requires h > 0 ==> pitch * (y + h - 1) + x + w <= |src|
    ensures |g| == w * h
    decreases h
  {
    if h == 0 then []
    else
      var line := pitch * (y + h - 1);
      MulMonotone(pitch, y + h - 2, y + h - 1);
      assert w * h == w * (h - 1) + w;
      Gathered(src, pitch, x, y, w, h - 1) + src[line + x .. line + x + w]
  }

  /** Texel (i, j) of the region lands at j * w + i of the packed buffer. */
  lemma {:induction false} GatheredAt(src: seq<int>, pitch: nat, x: nat, y: nat, w: nat, h: nat, i: nat, j: nat)
    requires h > 0 ==> pitch * (y + h - 1) + x + w <= |src|
    requires i < w && j < h
    ensures j * w + i < w * h
    ensures pitch * (y + j) + x + i < |src|
    ensures Gathered(src, pitch, x, y, w, h)[j * w + i] == src[pitch * (y + j) + x + i]
    decreases h
  {
    PackedIndex(w, h, i, j);
    MulMonotone(pitch, y + j, y + h - 1);
    if j < h - 1 {
      MulMonotone(pitch, y + h - 2, y + h - 1);
      GatheredAt(src, pitch, x, y, w, h - 1, i, j);
    }
  }

  /**
   * The region check fillRegion(src) leaves to its caller. The texel count
   * rect.w * rect.h is not negative (it sizes an array); an empty region
   * needs nothing more; a non-empty one lies at non-negative coordinates with
   * positive extents and reads inside the source.
   */
  predicate GatherInBounds(srcLength: nat, stride: int, rect: Rect) {
    && stride >= 0 && rect.w * rect.h >= 0
    && (rect.w * rect.h > 0 ==>
          && rect.x >= 0 && rect.y >= 0 && rect.w > 0 && rect.h > 0
          && (stride / 4) * (rect.y + rect.h - 1) + rect.x + rect.w <= srcLength)
  }

  /** The texels fillRegion(src) uploads. */
  function RegionTexels(src: seq<int>, stride: int, rect: Rect): seq<int>
    requires GatherInBounds(|src|, stride, rect)
  {
    if rect.w * rect.h == 0 then [] else Gathered(src, stride / 4, rect.x, rect.y, rect.w, rect.h)
  }

  /**
   * The nested loop of fillRegion(src): for each row y of the region, and
   * each column x, `*pDst++ = line[x]` with `line` the row's start in `src`.
   */
  method GatherRegion(src: seq<int>, stride: int, rect: Rect) returns (newData: seq<int>)
    requires GatherInBounds(|src|, stride, rect) && rect.w * rect.h > 0
    ensures newData == Gathered(src, stride / 4, rect.x, rect.y, rect.w, rect.h)
    ensures |newData| == rect.w * rect.h
  {
    var pitch: nat := stride / 4;
    var x0: nat, y0: nat, w: nat, h: nat := rect.x, rect.y, rect.w, rect.h;
    var buffer := new int[w * h];
    var pDst: nat := 0;
    for k := 0 to h
      invariant pDst == k * w <= w * h
      invariant buffer[..pDst] == Gathered(src, pitch, x0, y0, w, k)
    {
      // the row y0 + k of the source starts at `line`
      GatheredStep(src, pitch, x0, y0, w, h, k);
      var line: nat := pitch * (y0 + k);
      CopyRow(buffer, pDst, src, line + x0, w);
      pDst := pDst + w;
    }
    newData := buffer[..pDst];
  }

  /** One more row of the gather: where it is read from and where it is packed. */
  lemma GatheredStep(src: seq<int>, pitch: nat, x: nat, y: nat, w: nat, h: nat, k: nat)
    requires k < h && pitch * (y + h - 1) + x + w <= |src|
    ensures 0 <= pitch * (y + k) && pitch * (y + k) + x + w <= |src|
    ensures k * w + w == (k + 1) * w <= w * h
    ensures Gathered(src, pitch, x, y, w, k + 1)
         == Gathered(src, pitch, x, y, w, k) + src[pitch * (y + k) + x .. pitch * (y + k) + x + w]
  {
    MulMonotone(pitch, y + k, y + h - 1);
    MulMonotone(w, k + 1, h);
  }

  /** The inner loop of fillRegion(src): copies `w` texels of `src` from `from` to `buffer[at..]`. */
  method CopyRow(buffer: array<int>, at: nat, src: seq<int>, from: nat, w: nat)
    requires at + w <= buffer.Length && from + w <= |src|
    modifies buffer
    ensures buffer[..at + w] == old(buffer[..at]) + src[from .. from + w]
  {
    for i := 0 to w
      invariant buffer[..at + i] == old(buffer[..at]) + src[from .. from + i]
    {
      buffer[at + i] := src[from + i];
      assert src[from .. from + i + 1] == src[from .. from + i] + [src[from + i]];
    }
  }

  // ---------------------------------------------------------------------------
  // The texture object

  class WebGPUTexture {
    var size: Point                 // m_size
    var format: TextureFormat       // m_format
    var desc: TextureDesc           // m_textureDesc
    var textureType: TextureType    // m_type
    var texture: Handle             // m_texture
    var multiSampledTexture: Handle // m_multiSampledTexture
    var depthTexture: Handle        // m_depthTexture, which no member assigns
    var initialized: bool           // m_initialized
    var hasDepthBuffer: bool        // m_hasDepth

    /**
     * What every constructor leaves behind: only a render constructor can
     * fail, a texture holds a native texture exactly when it is initialized,
     * a depth buffer exists only on an initialized render texture, and a
     * Default texture is an RGBA8 image texture whose format follows its desc.
     */
    ghost predicate Valid()
      reads this
    {
      && depthTexture == 0
      && (initialized <==> texture != 0)
      && (!initialized ==> IsRenderType(textureType) && !hasDepthBuffer)
      && (hasDepthBuffer ==> IsRenderType(textureType))
      && (initialized && IsRenderType(textureType) ==> format != Unknown)
      && (textureType == Default ==>
            && IsRGBA8(format) && size.x >= 0 && size.y >= 0
            && (IsSRGB(desc) <==> format == R8G8B8A8_Unorm_SRGB))
    }

    /** WebGPUTexture(device, image, desc): a Default texture uploaded from an image. */
    constructor FromImage(device: Device, image: Image, desc: TextureDesc)
      requires device.Valid()
      modifies device
      ensures Valid() && device.Valid()
      ensures size == image.Size() && this.desc == desc && textureType == Default
      ensures format == (if IsSRGB(desc) then R8G8B8A8_Unorm_SRGB else R8G8B8A8_Unorm)
      ensures initialized && !hasDepthBuffer
      ensures texture == old(device.nextTexture) && device.nextTexture == texture + 1
      ensures device.calls == old(device.calls) + [
        CreateTexture(ColorDesc(image.Size(), format, 1, 1), texture),
        ImageUpload(texture, image, 0, image.Stride(), 0)]
    {
      var fmt := if IsSRGB(desc) then R8G8B8A8_Unorm_SRGB else R8G8B8A8_Unorm;
      var t := device.CreateTexture(ColorDesc(image.Size(), fmt, 1, 1));
      texture := t;
      multiSampledTexture := 0;
      depthTexture := 0;
      hasDepthBuffer := false;
      initialized := false;
      size := image.Size();
      format := fmt;
      this.desc := desc;
      textureType := Default;
      new;
      UploadImage(device, image, 0, image.Stride(), 0);
      initialized := true;
    }

    /**
     * WebGPUTexture(device, image, mipmaps, desc): the base level and then
     * each mip level. The texture type it records is Dynamic.
     */
    constructor FromImageMipmaps(device: Device, image: Image, mipmaps: seq<Image>, desc: TextureDesc)
      requires device.Valid()
      modifies device
      ensures Valid() && device.Valid()
      ensures size == image.Size() && this.desc == desc && textureType == Dynamic
      ensures format == (if IsSRGB(desc) then R8G8B8A8_Unorm_SRGB else R8G8B8A8_Unorm)
      ensures initialized && !hasDepthBuffer
      ensures texture == old(device.nextTexture) && device.nextTexture == texture + 1
      ensures device.calls == old(device.calls) + [
        CreateTexture(ColorDesc(image.Size(), format, 1 + |mipmaps|, 1), texture),
        ImageUpload(texture, image, 0, image.Stride(), 0)] + MipUploadsAsWritten(texture, image, mipmaps)
    {
      var fmt := if IsSRGB(desc) then R8G8B8A8_Unorm_SRGB else R8G8B8A8_Unorm;
      var t := device.CreateTexture(ColorDesc(image.Size(), fmt, 1 + |mipmaps|, 1));
      texture := t;
      multiSampledTexture := 0;
      depthTexture := 0;
      hasDepthBuffer := false;
      initialized := false;
      size := image.Size();
      format := fmt;
      this.desc := desc;
      textureType := Dynamic;
      new;
      UploadImage(device, image, 0, image.Stride(), 0);
      ghost var prefix := device.calls;
      for i := 0 to |mipmaps|
        modifies device
        invariant device.calls == prefix + MipUploadsAsWritten(texture, image, mipmaps[..i])
        invariant device.nextTexture == texture + 1
      {
        UploadImage(device, mipmaps[i], i + 1, image.Stride(), i + 1);
        assert MipUploadsAsWritten(texture, image, mipmaps[..i + 1])
            == MipUploadsAsWritten(texture, image, mipmaps[..i]) + [ImageUpload(texture, mipmaps[i], i + 1, image.Stride(), i + 1)];
      }
      assert mipmaps[..|mipmaps|] == mipmaps;
      initialized := true;
    }

    /** WebGPUTexture(Dynamic, device, size, pData, stride, format, desc): no format check. */
    constructor NewDynamic(device: Device, size: Point, format: TextureFormat, desc: TextureDesc)
      requires device.Valid()
      modifies device
      ensures Valid() && device.Valid()
      ensures this.size == size && this.format == format && this.desc == desc && textureType == Dynamic
      ensures initialized && !hasDepthBuffer
      ensures texture == old(device.nextTexture) && device.nextTexture == texture + 1
      ensures device.calls == old(device.calls) + [
        CreateTexture(ColorDesc(size, format, 1, 1), texture),
        Upload(texture, size, 0, size.x * PixelSize(format))]
    {
      var t := device.CreateTexture(ColorDesc(size, format, 1, 1));
      texture := t;
      multiSampledTexture := 0;
      depthTexture := 0;
      hasDepthBuffer := false;
      initialized := false;
      this.size := size;
      this.format := format;
      this.desc := desc;
      textureType := TextureType.Dynamic;
      new;
      CopyToTexture(device, size, 0, size.x * PixelSize(format));
      initialized := true;
    }

    /** WebGPUTexture(Render, device, size, format, desc, hasDepth): fails only for the Unknown format. */
    constructor NewRender(device: Device, size: Point, format: TextureFormat, desc: TextureDesc, hasDepth: bool)
      requires device.Valid()
      modifies device
      ensures Valid() && device.Valid()
      ensures this.size == size && this.format == format && this.desc == desc && textureType == Render
      ensures initialized == (format != Unknown)
      ensures hasDepthBuffer == (format != Unknown && hasDepth)
      ensures format == Unknown ==> texture == 0 && unchanged(device)
      ensures format != Unknown ==> device.calls == old(device.calls) + [
        CreateTexture(ColorDesc(size, format, 1, 1), old(device.nextTexture))] + DepthCreation(hasDepth, size, 1, old(device.nextTexture) + 1)
      ensures format != Unknown ==> texture == old(device.nextTexture) + (if hasDepth then 1 else 0)
    {
      this.size := size;
      this.format := format;
      this.desc := desc;
      textureType := TextureType.Render;
      texture := 0;
      multiSampledTexture := 0;
      depthTexture := 0;
      hasDepthBuffer := false;
      initialized := false;
      new;
      if format == Unknown {
        return;
      }
      texture := device.CreateTexture(ColorDesc(size, format, 1, 1));
      if hasDepth {
        var ok := InitDepthBuffer(device);
        if !ok {
          return;
        }
      }
      initialized := true;
    }

    /** WebGPUTexture(Render, device, image, format, desc, hasDepth): RGBA8 formats only. */
    constructor NewRenderFromImage(device: Device, image: Image, format: TextureFormat, desc: TextureDesc, hasDepth: bool)
      requires device.Valid()
      modifies device
      ensures Valid() && device.Valid()
      ensures size == image.Size() && this.format == format && this.desc == desc && textureType == Render
      ensures initialized == IsRGBA8(format)
      ensures hasDepthBuffer == (IsRGBA8(format) && hasDepth)
      ensures !IsRGBA8(format) ==> texture == 0 && unchanged(device)
      ensures IsRGBA8(format) ==> device.calls == old(device.calls) + [
        CreateTexture(ColorDesc(image.Size(), format, 1, 1), old(device.nextTexture)),
        ImageUpload(old(device.nextTexture), image, 0, image.Stride(), 9)] + DepthCreation(hasDepth, image.Size(), 1, old(device.nextTexture) + 1)
      ensures IsRGBA8(format) ==> texture == old(device.nextTexture) + (if hasDepth then 1 else 0)
    {
      size := image.Size();
      this.format := format;
      this.desc := desc;
      textureType := TextureType.Render;
      texture := 0;
      multiSampledTexture := 0;
      depthTexture := 0;
      hasDepthBuffer := false;
      initialized := false;
      new;
      if !IsRGBA8(format) {
        return;
      }
      texture := device.CreateTexture(ColorDesc(image.Size(), format, 1, 1));
      UploadImage(device, image, 0, image.Stride(), 9);
      if hasDepth {
        var ok := InitDepthBuffer(device);
        if !ok {
          return;
        }
      }
      initialized := true;
    }

    /**
     * WebGPUTexture(Render, device, Grid<float> / Grid<Float2> / Grid<Float4>,
     * format, desc, hasDepth): only the grid's own float format is accepted,
     * and rows are uploaded `width * sizeof(element)` bytes apart.
     */
    constructor NewRenderFromGrid(device: Device, grid: Grid, format: TextureFormat, desc: TextureDesc, hasDepth: bool)
      requires device.Valid()
      modifies device
      ensures Valid() && device.Valid()
      ensures size == grid.Size() && this.format == format && this.desc == desc && textureType == Render
      ensures initialized == (format == GridFormat(grid.kind))
      ensures hasDepthBuffer == (format == GridFormat(grid.kind) && hasDepth)
      ensures format != GridFormat(grid.kind) ==> texture == 0 && unchanged(device)
      ensures format == GridFormat(grid.kind) ==> (device.calls == old(device.calls) + [
        CreateTexture(ColorDesc(grid.Size(), format, 1, 1), old(device.nextTexture)),
        Upload(old(device.nextTexture), grid.Size(), 0, grid.width * ElementSize(grid.kind))] +
        DepthCreation(hasDepth, grid.Size(), 1, old(device.nextTexture) + 1))
      ensures format == GridFormat(grid.kind) ==> texture == old(device.nextTexture) + (if hasDepth then 1 else 0)
    {
      size := grid.Size();
      this.format := format;
      this.desc := desc;
      textureType := TextureType.Render;
      texture := 0;
      multiSampledTexture := 0;
      depthTexture := 0;
      hasDepthBuffer := false;
      initialized := false;
      new;
      if format != GridFormat(grid.kind) {
        return;
      }
      texture := device.CreateTexture(ColorDesc(grid.Size(), format, 1, 1));
      CopyToTexture(device, grid.Size(), 0, grid.width * ElementSize(grid.kind));
      if hasDepth {
        var ok := InitDepthBuffer(device);
        if !ok {
          return;
        }
      }
      initialized := true;
    }

    /**
     * WebGPUTexture(MSRender, device, size, format, desc, hasDepth): a
     * 4-sample texture and a single-sample one; fails only for Unknown.
     */
    constructor NewMSRender(device: Device, size: Point, format: TextureFormat, desc: TextureDesc, hasDepth: bool)
      requires device.Valid()
      modifies device
      ensures Valid() && device.Valid()
      ensures this.size == size && this.format == format && this.desc == desc && textureType == MSRender
      ensures initialized == (format != Unknown)
      ensures hasDepthBuffer == (format != Unknown && hasDepth)
      ensures format == Unknown ==> texture == 0 && multiSampledTexture == 0 && unchanged(device)
      ensures format != Unknown ==> multiSampledTexture == old(device.nextTexture)
      ensures format != Unknown ==> (device.calls == old(device.calls) + [
        CreateTexture(ColorDesc(size, format, 1, 4), old(device.nextTexture)),
        CreateTexture(ColorDesc(size, format, 1, 1), old(device.nextTexture) + 1)] +
        DepthCreation(hasDepth, size, 4, old(device.nextTexture) + 2))
      ensures format != Unknown ==> texture == old(device.nextTexture) + (if hasDepth then 2 else 1)
    {
      this.size := size;
      this.format := format;
      this.desc := desc;
      textureType := TextureType.MSRender;
      texture := 0;
      multiSampledTexture := 0;
      depthTexture := 0;
      hasDepthBuffer := false;
      initialized := false;
      new;
      if format == Unknown {
        return;
      }
      multiSampledTexture := device.CreateTexture(ColorDesc(size, format, 1, 4));
      texture := device.CreateTexture(ColorDesc(size, format, 1, 1));
      if hasDepth {
        var ok := InitDepthBuffer(device);
        if !ok {
          return;
        }
      }
      initialized := true;
    }

    /** isInitialized(): only a render texture can be left uninitialized, and then it has no depth buffer. */
    function IsInitialized(): (b: bool)
      requires Valid()
      reads this
      ensures !b ==> IsRenderType(textureType) && !hasDepthBuffer
    {
      initialized
    }

    /** getTexture(): the handle is non-null exactly when the texture is initialized. */
    function GetTexture(): (t: Handle)
      requires Valid()
      reads this
      ensures t != 0 <==> initialized
    {
      texture
    }

    /** getSize(): a Default texture has the non-negative size of its image. */
    function GetSize(): (s: Point)
      requires Valid()
      reads this
      ensures textureType == Default ==> s.x >= 0 && s.y >= 0
    {
      size
    }

    /** getDesc(): a Default texture's desc is sRGB exactly when its format is. */
    function GetDesc(): (d: TextureDesc)
      requires Valid()
      reads this
      ensures textureType == Default ==> (IsSRGB(d) <==> format == R8G8B8A8_Unorm_SRGB)
    {
      desc
    }

    /** getFormat(): an image texture is RGBA8, and an initialized render texture has a known format. */
    function GetFormat(): (f: TextureFormat)
      requires Valid()
      reads this
      ensures textureType == Default ==> IsRGBA8(f)
      ensures initialized && IsRenderType(textureType) ==> f != Unknown
    {
      format
    }

    /** hasDepth(): only an initialized render texture has a depth buffer. */
    function HasDepth(): (b: bool)
      requires Valid()
      reads this
      ensures b ==> IsRenderType(textureType) && initialized
    {
      hasDepthBuffer
    }

    /**
     * The staging-image branch the image constructors share: upload an
     * aligned image with `alignedStride` into `alignedLevel`, or copy it into
     * an image padded to the next multiple of 64 pixels and upload that
     * image's stride into `paddedLevel`.
     */
    method UploadImage(device: Device, image: Image, alignedLevel: nat, alignedStride: nat, paddedLevel: nat)
      modifies device
      ensures device.calls == old(device.calls) + [ImageUpload(texture, image, alignedLevel, alignedStride, paddedLevel)]
      ensures device.nextTexture == old(device.nextTexture)
    {
      if image.width % 64 == 0 {
        CopyToTexture(device, image.Size(), alignedLevel, alignedStride);
      } else {
        var requiredWidth := ((image.width / 64) + 1) * 64;
        var copiedImage := Image(requiredWidth, image.height);
        CopyToTexture(device, image.Size(), paddedLevel, copiedImage.Stride());
      }
    }

    /**
     * initDepthBuffer(): creates a Depth32Float texture of the texture's size
     * (4 samples for MSRender) and stores it in `texture`, which replaces the
     * colour texture handle.
     */
    method InitDepthBuffer(device: Device) returns (ok: bool)
      requires !hasDepthBuffer && depthTexture == 0 && IsRenderType(textureType)
      modifies this`texture, this`hasDepthBuffer, device
      ensures ok && hasDepthBuffer
      ensures texture == old(device.nextTexture) && device.nextTexture == old(device.nextTexture) + 1
      ensures device.calls == old(device.calls) + [CreateTexture(DepthDesc(size, if textureType == MSRender then 4 else 1), texture)]
    {
      if textureType == TextureType.Render {
        texture := device.CreateTexture(DepthDesc(size, 1));
      } else {
        texture := device.CreateTexture(DepthDesc(size, 4));
      }
      hasDepthBuffer := true;
      ok := true;
    }

    /**
     * copyToTexture(device, size, mipLevel, src, stride): stages
     * stride * size.y bytes and copies them into `mipLevel` of `texture`.
     */
    method CopyToTexture(device: Device, dstSize: Point, mipLevel: nat, stride: int)
      modifies device
      ensures device.calls == old(device.calls) + [Upload(texture, dstSize, mipLevel, stride)]
      ensures device.nextTexture == old(device.nextTexture)
    {
      var bufferSize := StagingBufferSize(stride, dstSize.y);
      device.Submit(CopyBufferToTexture(texture, mipLevel, dstSize, stride, dstSize.y, bufferSize));
    }

    /**
     * fill(device, color, wait): `colorBuffer` is the buffer
     * GenerateInitialColorBuffer(m_size, color, m_format) returns.
     */
    method Fill(device: Device, colorBuffer: seq<int>) returns (ok: bool)
      modifies device
      ensures ok == (textureType == TextureType.Dynamic && |colorBuffer| > 0)
      ensures !ok ==> unchanged(device)
      ensures ok ==> device.calls == old(device.calls) + [Upload(texture, size, 0, size.x * PixelSize(format))]
      ensures device.nextTexture == old(device.nextTexture)
    {
      if textureType != TextureType.Dynamic {
        return false;
      }
      if |colorBuffer| == 0 {
        return false;
      }
      CopyToTexture(device, size, 0, size.x * PixelSize(format));
      return true;
    }

    /**
     * fillRegion(device, color, rect): `colorBuffer` is the buffer
     * GenerateInitialColorBuffer(rect.size, color, m_format) returns. The
     * region must end within the texture.
     */
    method FillRegion(device: Device, colorBuffer: seq<int>, rect: Rect) returns (ok: bool)
      modifies device
      ensures ok == (textureType == TextureType.Dynamic && rect.x + rect.w <= size.x && rect.y + rect.h <= size.y)
      ensures !ok ==> unchanged(device)
      ensures ok ==> device.calls == old(device.calls) + [
        WriteTexture(texture, rect.Pos(), rect.w * PixelSize(format), rect.h, rect.Size(), Bytes(colorBuffer))]
      ensures device.nextTexture == old(device.nextTexture)
    {
      if textureType != TextureType.Dynamic {
        return false;
      }
      if size.x < rect.x + rect.w || size.y < rect.y + rect.h {
        return false;
      }
      device.Submit(WriteTexture(texture, Point(rect.x, rect.y), rect.w * PixelSize(format), rect.h,
                                 Point(rect.w, rect.h), Bytes(colorBuffer)));
      return true;
    }

    /** fill(device, src, stride, wait): whole-surface upload, RGBA8 formats only. */
    method FillImage(device: Device, src: seq<int>, stride: int) returns (ok: bool)
      modifies device
      ensures ok == (textureType == TextureType.Dynamic && IsRGBA8(format))
      ensures !ok ==> unchanged(device)
      ensures ok ==> device.calls == old(device.calls) + [Upload(texture, size, 0, size.x * PixelSize(format))]
      ensures device.nextTexture == old(device.nextTexture)
    {
      if textureType != TextureType.Dynamic {
        return false;
      }
      if IsRGBA8(format) {
        CopyToTexture(device, size, 0, size.x * PixelSize(format));
        return true;
      } else {
        return false;
      }
    }

    /**
     * fillRegion(device, src, stride, rect, wait): RGBA8 formats only. The
     * region is not checked against the texture; an empty region succeeds
     * without an upload; otherwise the gathered texels are written at the
     * region's origin with rect.w * pixelSize bytes per row.
     */
    method FillRegionImage(device: Device, src: seq<int>, stride: int, rect: Rect) returns (ok: bool)
      requires textureType == TextureType.Dynamic && IsRGBA8(format) ==> GatherInBounds(|src|, stride, rect)
      modifies device
      ensures ok == (textureType == TextureType.Dynamic && IsRGBA8(format))
      ensures !ok || rect.w * rect.h == 0 ==> unchanged(device)
      ensures ok && rect.w * rect.h != 0 ==> device.calls == old(device.calls) + [
        WriteTexture(texture, rect.Pos(), rect.w * PixelSize(format), rect.h, rect.Size(), Texels(RegionTexels(src, stride, rect)))]
      ensures device.nextTexture == old(device.nextTexture)
    {
      if textureType != TextureType.Dynamic {
        return false;
      }
      if IsRGBA8(format) {
        if rect.w * rect.h == 0 {
          return true;
        }
        var newData := GatherRegion(src, stride, rect);
        device.Submit(WriteTexture(texture, Point(rect.x, rect.y), rect.w * PixelSize(format), rect.h,
                                   Point(rect.w, rect.h), Texels(newData)));
        return true;
      } else {
        return false;
      }
    }

    /** clearRT(color): past its type check the body is commented out; `reached` tells whether it gets there. */
    method ClearRT() returns (reached: bool)
      ensures reached == IsRenderType(textureType)
    {
      if textureType != TextureType.Render && textureType != TextureType.MSRender {
        return false;
      }
      return true;
    }

    /**
     * The four readRT overloads: with a render type and the destination's
     * format the destination is resized to the texture size (the read-back
     * itself is commented out); otherwise it is left untouched.
     */
    method ReadRT(dest: Surface) returns (result: Surface)
      ensures IsRenderType(textureType) && Readable(dest.target, format) ==>
        result == Surface(dest.target, size.x, size.y)
      ensures !(IsRenderType(textureType) && Readable(dest.target, format)) ==> result == dest
    {
      if textureType != TextureType.Render && textureType != TextureType.MSRender {
        return dest;
      }
      if !Readable(dest.target, format) {
        return dest;
      }
      result := dest.(width := size.x, height := size.y);
    }

    /** resolveMSRT(): past its type check the body is commented out; `reached` tells whether it gets there. */
    method ResolveMSRT() returns (reached: bool)
      ensures reached == (textureType == TextureType.MSRender)
    {
      if textureType != TextureType.MSRender {
        return false;
      }
      return true;
    }
  }

  /** The depth texture creation that follows a successful colour creation when depth is requested. */
  function DepthCreation(hasDepth: bool, size: Point, sampleCount: nat, texture: Handle): (cs: seq<GpuCall>)
    ensures |cs| == (if hasDepth then 1 else 0)
  {
    if hasDepth then [CreateTexture(DepthDesc(size, sampleCount), texture)] else []
  }
}
