# Siv3D texture, sampler, rectangle and format cores in Dafny

This project models four pieces of the Siv3D engine and proves properties of
the models:

- **WebGPU textures** (`texture.dfy`, module `WebGPU`). The `WebGPUTexture`
  class holds the usage type (Default, Dynamic, Render, MSRender), the format,
  the size, the native texture handles and the `initialized` / `hasDepth`
  flags. Its named constructors mirror the C++ constructors. The
  `fill` / `fillRegion` overloads, `clearRT`, `readRT`, `resolveMSRT`,
  `initDepthBuffer` and `copyToTexture` are methods. The WebGPU device is a
  `Device` object with a ghost call log, and native handles come from a
  counter. Every texture creation, staged copy and `WriteTexture` is
  appended to that log, so each method states exactly which calls it makes.
  Pure functions give the upload layout. The 256-byte `bytesPerRow` rule of
  GPUImageCopyBuffer in the W3C WebGPU specification is proved for every
  upload of an image with its own stride. That covers the base level of every
  image constructor and every padded mip level. An aligned mip level goes up
  with the base image's stride, as the mipmapped constructor is written, and
  then meets the rule only when the base width is a multiple of 64 (see
  "## Findings"). The strided gather of `fillRegion(src)` is proved to put
  texel (i, j) of the region at index `j * w + i` of the packed buffer.
- **The OpenGL 4 sampler-state cache** (`sampler_state.dfy`, module
  `GL4Sampler`). The `GL4SamplerState` class keeps three things:
  - the per-slot array of currently bound states, starting at the
    `NullSamplerState` sentinel;
  - the map from state to native sampler;
  - the border colour captured by the first `create`.

  Each method is proved equal to a pure function on a `CacheModel` value.
  The lemmas about those functions prove:
  - rebinding is skipped;
  - cached samplers are reused;
  - the cache is cleared at 1024 entries;
  - other slots are untouched;
  - the 1024 bound survives any sequence of operations.
- **Integer rectangles** (`rectangle.dfy`, module `Rectangles`). `Rect` is
  a value type covering the anchor constructors, corners, `movedBy`,
  `stretched`, `area`, `perimeter`, `==`/`!=` and the `operator<<` text.
  The `Rectangle` class is there for the members that update in place:
  `setPos`, `setCenter`, `setSize`, `set` and `moveBy`. Parsing the text
  `operator<<` writes gives back the rectangle.
- **Integer and literal formatting** (`format.dfy`, module `Format`).
  `AppendInt` works like the C++: a do-while loop writes the digits
  backwards into a 12-character array, an optional `-` goes in front, and a
  copy loop moves the text into the output array. Its result is proved to
  be the decimal text of the value, which reads back to the value. The
  `bool`, `nullptr`, `char16_t` and `char32_t` formatters append to a
  `FormatData` string.

The model follows the code as written, including its quirks:

- `Render(Image)` uploads a padded image into mip level 9
  (`NewRenderFromImage`).
- For an aligned mip level, the mipmapped image constructor passes the base
  image's stride, and the model's constructor does the same
  (`MipUploadsAsWritten`, `AlignedMipUsesBaseStride`). "## Findings" records
  this, with the corrected uploads in `MipUploads`.
- The mipmapped constructor records the type Dynamic.
- `initDepthBuffer` stores the depth texture in `m_texture`, which replaces
  the colour texture handle. `m_depthTexture` is never assigned.
- `fillRegion(src)` does not check the region against the texture, and it
  returns `true` without an upload when the region is empty.
- The border colour of `create` lives in a function-local static array, so
  the colour of the first state any cache of the process creates is used for
  every later sampler of every cache. The static is one `StaticBorder`
  object that every cache holds and that `Create` modifies.
  `TwoCachesShareBorder` shows two caches alive at the same time sharing the
  first cache's colour.
- `Rectangle`'s centre constructors and `setCenter` halve with C++
  truncation toward zero (`TruncHalf`).

## Model

| member | source | states |
|---|---|---|
| Format.DigitsCorrect | Siv3D/Source/Siv3D/Format/SivFormat.cpp:41-47 | the digit loop writes at least one digit, 0 gives "0", there is no leading zero otherwise, and the digits read back to the magnitude |
| Format.DigitsLength | Siv3D/Source/Siv3D/Format/SivFormat.cpp:37-47 | a magnitude below 10^k takes at most k digits |
| Format.DecimalTextFits | Siv3D/Source/Siv3D/Format/SivFormat.cpp:37-54 | for every 32-bit value except LONG_MIN the text fits the 11 usable cells of the 12-character buffer (10 digits, plus the sign) |
| Format.DecimalTextShape | Siv3D/Source/Siv3D/Format/SivFormat.cpp:26-52 | the text starts with '-' if and only if the value is negative, and holds only digits after that |
| Format.ParseDecimalText | Siv3D/Source/Siv3D/Format/SivFormat.cpp:21-59 | parsing the written text gives back the value |
| Format.DecimalTextInjective | Siv3D/Source/Siv3D/Format/SivFormat.cpp:21-59 | distinct values are written as distinct texts |
| Format.AppendInt | Siv3D/Source/Siv3D/Format/SivFormat.cpp:21-59 | requires -2^31 < value < 2^31; writes exactly the decimal text of value at the output position, advances it by that length (at most 11) and leaves the rest of the output untouched |
| Format.WriteDecimal | Siv3D/Source/Siv3D/Format/SivFormat.cpp:21-52 | the sign and magnitude are split and the decimal text of the value ends just before the terminator at index 11 of a fresh 12-character buffer |
| Format.WriteDigitsBackwards | Siv3D/Source/Siv3D/Format/SivFormat.cpp:37-47 | the do-while loop puts the terminator at index 11 and leaves the digits of the magnitude, most significant first, just before it, never writing below index 1 |
| Format.CopyChars | Siv3D/Source/Siv3D/Format/SivFormat.cpp:54-56 | the memcpy copies `length` characters and touches nothing else of the destination |
| Format.BoolText | Siv3D/Source/Siv3D/Format/SivFormat.cpp:140-150 | the literal for a boolean reads back to that boolean |
| Format.FormatData.AppendBool | Siv3D/Source/Siv3D/Format/SivFormat.cpp:140-150 | appends exactly "true" (4 characters) or "false" (5 characters) |
| Format.FormatData.AppendNull | Siv3D/Source/Siv3D/Format/SivFormat.cpp:135-138 | appends exactly "null" |
| Format.FormatData.AppendChar16 | Siv3D/Source/Siv3D/Format/SivFormat.cpp:106-109 | appends exactly one character and keeps the existing text as a prefix |
| Format.FormatData.AppendChar32 | Siv3D/Source/Siv3D/Format/SivFormat.cpp:128-130 | appends exactly one character and keeps the existing text as a prefix |
| Rectangles.TruncHalf | Siv3D/Include/Siv3D/Rectangle.hpp:242-244 | `v / 2` with truncation toward zero: the remainder is -1, 0 or 1 and has the sign of v |
| Rectangles.Rect.Br | Siv3D/Include/Siv3D/Rectangle.hpp:1207-1210 | the bottom-right corner is where tr()'s column meets bl()'s row |
| Rectangles.Rect.Area | Siv3D/Include/Siv3D/Rectangle.hpp:1243-1246 | the area is the product of the extents between opposite corners |
| Rectangles.Rect.Perimeter | Siv3D/Include/Siv3D/Rectangle.hpp:1254-1257 | the perimeter is the sum of the four side lengths measured between the corners |
| Rectangles.Rect.Equals | Siv3D/Include/Siv3D/Rectangle.hpp:427-431 | comparing pos and size holds if and only if the rectangles are equal |
| Rectangles.Rect.NotEquals | Siv3D/Include/Siv3D/Rectangle.hpp:433-436 | != holds if and only if the rectangles differ, and it is the negation of == |
| Rectangles.Rect.MovedBy | Siv3D/Include/Siv3D/Rectangle.hpp:1027-1030 | the size is kept, and the position and the bottom-right corner shift by (dx, dy) |
| Rectangles.Rect.MovedByVector | Siv3D/Include/Siv3D/Rectangle.hpp:1041-1044 | moving by a vector is moving by its two components |
| Rectangles.Rect.Stretched | Siv3D/Include/Siv3D/Rectangle.hpp:1119-1122 | the top-left corner moves out by (-xy.x, -xy.y) and the bottom-right corner by (xy.x, xy.y) |
| Rectangles.Rect.StretchedEdges | Siv3D/Include/Siv3D/Rectangle.hpp:1142-1145 | the top-left corner moves by (-left, -top) and the bottom-right corner by (right, bottom) |
| Rectangles.FromTopRight | Siv3D/Include/Siv3D/Rectangle.hpp:326-328 | the top-right corner is p and the size is (w, h) |
| Rectangles.FromBottomLeft | Siv3D/Include/Siv3D/Rectangle.hpp:368-370 | the bottom-left corner is p and the size is (w, h) |
| Rectangles.FromBottomRight | Siv3D/Include/Siv3D/Rectangle.hpp:410-412 | the bottom-right corner is p and the size is (w, h) |
| Rectangles.FromCenter | Siv3D/Include/Siv3D/Rectangle.hpp:226-257 | the size is (w, h) and the position is the centre minus the truncated half size; for non-negative extents the centre lies in the rectangle, at most half a unit before the exact middle |
| Rectangles.AnchorRoundTrip | Siv3D/Include/Siv3D/Rectangle.hpp:284-412 | building a rectangle's size from its own tl(), tr(), bl() or br() gives back the rectangle |
| Rectangles.CornersSpanSize | Siv3D/Include/Siv3D/Rectangle.hpp:1192-1205 | tr() is one width right of tl(), bl() one height below it, and the top-left constructor puts the point at tl() with the given size |
| Rectangles.OriginConstructors | Siv3D/Include/Siv3D/Rectangle.hpp:86-111 | a square of side s is the s-by-s rectangle at the origin, which is the top-left constructor at (0, 0), with its bottom-right corner at (w, h) and area w * h |
| Rectangles.StretchedOverloads | Siv3D/Include/Siv3D/Rectangle.hpp:1088-1108 | stretched(d) pushes all four edges out by d and grows the perimeter by 8 * d; stretched(x, y) pushes left and right by x and top and bottom by y |
| Rectangles.CornerConstructorsCommuteWithMove | Siv3D/Include/Siv3D/Rectangle.hpp:284-412 | moving a rectangle built from a corner is building it from the moved corner |
| Rectangles.MovedByRoundTrip | Siv3D/Include/Siv3D/Rectangle.hpp:1027-1030 | moving back undoes a move, and two moves compose into one |
| Rectangles.StretchedIsStretchedEdges | Siv3D/Include/Siv3D/Rectangle.hpp:1119-1145 | stretched(xy) is stretched(top, right, bottom, left) with xy.y above and below and xy.x left and right |
| Rectangles.StretchedEdgesPerimeter | Siv3D/Include/Siv3D/Rectangle.hpp:1142-1145 | stretching grows the perimeter by twice the sum of the amounts, and the negated amounts undo it |
| Rectangles.MovedByKeepsMeasures | Siv3D/Include/Siv3D/Rectangle.hpp:1027-1030 | moving keeps both the area and the perimeter |
| Rectangles.Rect.Text | Siv3D/Include/Siv3D/Rectangle.hpp:1338-1346 | the text is parenthesised, and splitting its inside at commas gives the decimal texts of x, y, w and h in order |
| Rectangles.IndexOf | Siv3D/Include/Siv3D/Rectangle.hpp:1338-1346 | the index of the first occurrence of the separator, or the length when there is none |
| Rectangles.Fields | Siv3D/Include/Siv3D/Rectangle.hpp:1338-1346 | splitting at commas gives at least one field |
| Rectangles.NoCommaInDecimalText | Siv3D/Include/Siv3D/Rectangle.hpp:1341-1345 | a decimal field never contains the separator |
| Rectangles.FieldsCons | Siv3D/Include/Siv3D/Rectangle.hpp:1341-1345 | a comma-free field followed by a comma is split off as the first field |
| Rectangles.FieldsSingle | Siv3D/Include/Siv3D/Rectangle.hpp:1341-1345 | a comma-free text is a single field |
| Rectangles.FieldsOfThree | Siv3D/Include/Siv3D/Rectangle.hpp:1341-1345 | three comma-free fields joined by commas split back into those fields |
| Rectangles.FieldsOfFour | Siv3D/Include/Siv3D/Rectangle.hpp:1341-1345 | four comma-free fields joined by commas split back into those fields |
| Rectangles.ParseRectText | Siv3D/Include/Siv3D/Rectangle.hpp:1338-1346 | the "(x,y,w,h)" text written by operator<< parses back to the same rectangle |
| Rectangles.Rectangle.constructor | Siv3D/Include/Siv3D/Rectangle.hpp:128-130 | the object holds the given position and size |
| Rectangles.Rectangle.SetPos | Siv3D/Include/Siv3D/Rectangle.hpp:450-468 | the top-left corner is placed at the point and the size is unchanged |
| Rectangles.Rectangle.SetPosTopRight | Siv3D/Include/Siv3D/Rectangle.hpp:507-511 | the top-right corner is placed at p, the size is unchanged, and the result is the top-right constructor |
| Rectangles.Rectangle.SetPosBottomLeft | Siv3D/Include/Siv3D/Rectangle.hpp:522-526 | the bottom-left corner is placed at p, the size is unchanged, and the result is the bottom-left constructor |
| Rectangles.Rectangle.SetPosBottomRight | Siv3D/Include/Siv3D/Rectangle.hpp:537-541 | the bottom-right corner is placed at p, the size is unchanged, and the result is the bottom-right constructor |
| Rectangles.Rectangle.SetCenter | Siv3D/Include/Siv3D/Rectangle.hpp:555-559 | the new value is the centre constructor at (x, y) with the old size |
| Rectangles.Rectangle.SetSize | Siv3D/Include/Siv3D/Rectangle.hpp:587-591 | the size becomes (w, h) and the position is unchanged |
| Rectangles.Rectangle.Set | Siv3D/Include/Siv3D/Rectangle.hpp:628-633 | exactly the four given fields are stored |
| Rectangles.Rectangle.MoveBy | Siv3D/Include/Siv3D/Rectangle.hpp:1058-1062 | the new value is movedBy applied to the old one |
| GL4Sampler.AddressIndex | Siv3D/src/Siv3D-Platform/OpenGL4/Siv3D/Renderer/GL4/SamplerState/GL4SamplerState.cpp:83-90 | every address mode indexes inside the 4-entry wrap table |
| GL4Sampler.MinMipIndex | Siv3D/src/Siv3D-Platform/OpenGL4/Siv3D/Renderer/GL4/SamplerState/GL4SamplerState.cpp:85-86 | `(min << 1) \| mip` lies in [0, 4) and is 2 * min + mip |
| GL4Sampler.MinFilterParam | Siv3D/src/Siv3D-Platform/OpenGL4/Siv3D/Renderer/GL4/SamplerState/GL4SamplerState.cpp:18-24 | the minification filter is linear if and only if min is Linear, and blends mips linearly if and only if mip is Linear |
| GL4Sampler.WrapParam | Siv3D/src/Siv3D-Platform/OpenGL4/Siv3D/Renderer/GL4/SamplerState/GL4SamplerState.cpp:83-90 | each address mode maps to its own GL wrap mode and back |
| GL4Sampler.Params | Siv3D/src/Siv3D-Platform/OpenGL4/Siv3D/Renderer/GL4/SamplerState/GL4SamplerState.cpp:81-96 | the new sampler gets the table filters, the wrap for each axis, the state's LOD bias and anisotropy, compare mode GL_NONE, the captured border and LOD range [-1000, 1000] |
| GL4Sampler.InitialModel | Siv3D/src/Siv3D-Platform/OpenGL4/Siv3D/Renderer/GL4/SamplerState/GL4SamplerState.cpp:27-40 | after construction every slot holds the sentinel, the cache and log are empty, and the border is the process-wide static as the cache finds it |
| GL4Sampler.CreateModel | Siv3D/src/Siv3D-Platform/OpenGL4/Siv3D/Renderer/GL4/SamplerState/GL4SamplerState.cpp:77-104 | a fresh sampler name; at 1024 or more entries the cache is cleared and then holds exactly one entry, otherwise it grows by one; the bound is kept; the first border colour is kept for good |
| GL4Sampler.SetPSModel | Siv3D/src/Siv3D-Platform/OpenGL4/Siv3D/Renderer/GL4/SamplerState/GL4SamplerState.cpp:42-66 | rebinding the recorded state changes nothing; otherwise the slot records the state, the state is cached and a bind of its sampler ends the log; a cached state is reused with exactly one bind and no create; an uncached one is created and then bound; the bound is kept |
| GL4Sampler.SetNoneModel | Siv3D/src/Siv3D-Platform/OpenGL4/Siv3D/Renderer/GL4/SamplerState/GL4SamplerState.cpp:68-75 | always logs a bind of 0 and resets the slot to the sentinel, leaving the cache alone |
| GL4Sampler.SetPSIdempotent | Siv3D/src/Siv3D-Platform/OpenGL4/Siv3D/Renderer/GL4/SamplerState/GL4SamplerState.cpp:46-49 | binding the same state twice is the same as binding it once |
| GL4Sampler.BindAfterUnbind | Siv3D/src/Siv3D-Platform/OpenGL4/Siv3D/Renderer/GL4/SamplerState/GL4SamplerState.cpp:68-75 | after setPS(slot, None), binding any real state issues a bind for that slot again |
| GL4Sampler.SetPSOtherSlots | Siv3D/src/Siv3D-Platform/OpenGL4/Siv3D/Renderer/GL4/SamplerState/GL4SamplerState.cpp:65-74 | both setPS overloads leave every other slot unchanged |
| GL4Sampler.Run | Siv3D/src/Siv3D-Platform/OpenGL4/Siv3D/Renderer/GL4/SamplerState/GL4SamplerState.cpp:42-75 | a sequence of setPS calls keeps the number of slots |
| GL4Sampler.StaticBorderShared | Siv3D/src/Siv3D-Platform/OpenGL4/Siv3D/Renderer/GL4/SamplerState/GL4SamplerState.cpp:81-82 | a cache constructed after another cache's first create gives its own first sampler that earlier colour, not its state's border |
| GL4Sampler.RunKeepsBound | Siv3D/src/Siv3D-Platform/OpenGL4/Siv3D/Renderer/GL4/SamplerState/GL4SamplerState.cpp:98-103 | whatever sequence of binds and unbinds is performed, the cache never holds more than 1024 samplers |
| GL4Sampler.RunExtendsLog | Siv3D/src/Siv3D-Platform/OpenGL4/Siv3D/Renderer/GL4/SamplerState/GL4SamplerState.cpp:42-75 | the driver call log only grows |
| GL4Sampler.GL4SamplerState.constructor | Siv3D/src/Siv3D-Platform/OpenGL4/Siv3D/Renderer/GL4/SamplerState/GL4SamplerState.cpp:37-40 | the object starts as the initial model: every slot at the sentinel, and it holds the shared static border in whatever state earlier caches left it |
| GL4Sampler.StaticBorder.constructor | Siv3D/src/Siv3D-Platform/OpenGL4/Siv3D/Renderer/GL4/SamplerState/GL4SamplerState.cpp:82 | before any create the static border is not yet initialised |
| GL4Sampler.TwoCachesShareBorder | Siv3D/src/Siv3D-Platform/OpenGL4/Siv3D/Renderer/GL4/SamplerState/GL4SamplerState.cpp:81-94 | of two caches built before either creates a sampler, the second's first sampler gets the colour of the first cache's first state |
| GL4Sampler.GL4SamplerState.SetPS | Siv3D/src/Siv3D-Platform/OpenGL4/Siv3D/Renderer/GL4/SamplerState/GL4SamplerState.cpp:42-66 | requires slot < MaxSamplerCount; the new state is the setPS model of the old one |
| GL4Sampler.GL4SamplerState.SetPSNone | Siv3D/src/Siv3D-Platform/OpenGL4/Siv3D/Renderer/GL4/SamplerState/GL4SamplerState.cpp:68-75 | requires slot < MaxSamplerCount; the new state is the unbind model of the old one |
| GL4Sampler.GL4SamplerState.Create | Siv3D/src/Siv3D-Platform/OpenGL4/Siv3D/Renderer/GL4/SamplerState/GL4SamplerState.cpp:77-104 | the new state and the returned sampler are those of the create model, and the 1024 bound is kept |
| WebGPU.ElementSize | Siv3D/src/Siv3D-Platform/WebGPU/Siv3D/Texture/WebGPU/WebGPUTexture.cpp:277-361 | the element size of each grid kind is the pixel size of the format that grid requires |
| WebGPU.StagingBufferSize | Siv3D/src/Siv3D-Platform/WebGPU/Siv3D/Texture/WebGPU/WebGPUTexture.cpp:812-817 | the staging size is computed modulo 2^32, so it equals stride * height whenever that fits in 32 bits |
| WebGPU.Upload | Siv3D/src/Siv3D-Platform/WebGPU/Siv3D/Texture/WebGPU/WebGPUTexture.cpp:810-850 | copyToTexture copies into the given level with bytesPerRow = stride and rowsPerImage = height, over the destination extent, from a buffer of stride * height bytes when that fits in 32 bits |
| WebGPU.PaddedWidth | Siv3D/src/Siv3D-Platform/WebGPU/Siv3D/Texture/WebGPU/WebGPUTexture.cpp:49-51 | the padded width is a multiple of 64 strictly between w and w + 64 |
| WebGPU.PaddedWidthIsLeast | Siv3D/src/Siv3D-Platform/WebGPU/Siv3D/Texture/WebGPU/WebGPUTexture.cpp:49-51 | no multiple of 64 that holds the row is smaller than the padded width |
| WebGPU.StagingWidth | Siv3D/src/Siv3D-Platform/WebGPU/Siv3D/Texture/WebGPU/WebGPUTexture.cpp:44-55 | the upload row width is a multiple of 64 with w <= width < w + 64, and it equals w exactly when w is aligned |
| WebGPU.ImageUploadLayout | Siv3D/src/Siv3D-Platform/WebGPU/Siv3D/Texture/WebGPU/WebGPUTexture.cpp:42-55 | an image upload keeps the image size as the copy extent, uses rows of the least multiple of 64 pixels that hold the image, so bytesPerRow is a multiple of 256 and at least the image stride, and picks the aligned or padded mip level by alignment |
| WebGPU.ImageUpload | Siv3D/src/Siv3D-Platform/WebGPU/Siv3D/Texture/WebGPU/WebGPUTexture.cpp:42-55 | the copy extent is the image size; an aligned image goes up with the given stride into the aligned level, an unaligned one with the padded rows, wider than its stride, into the padded level |
| WebGPU.MipUploadsAsWritten | Siv3D/src/Siv3D-Platform/WebGPU/Siv3D/Texture/WebGPU/WebGPUTexture.cpp:100-115 | one upload per mip level, and an aligned mip goes up with the base image's stride |
| WebGPU.AlignedMipRowRule | Siv3D/src/Siv3D-Platform/WebGPU/Siv3D/Texture/WebGPU/WebGPUTexture.cpp:100-106 | as written, an aligned mip meets the 256-byte bytesPerRow rule exactly when the base width is a multiple of 64 |
| WebGPU.MipStrideBreaksRowRule | Siv3D/src/Siv3D-Platform/WebGPU/Siv3D/Texture/WebGPU/WebGPUTexture.cpp:100-106 | as written, a 129-pixel base with a 64-pixel mip stages the mip with 516 bytes per row, not a multiple of 256 |
| WebGPU.AlignedMipUsesBaseStride | Siv3D/src/Siv3D-Platform/WebGPU/Siv3D/Texture/WebGPU/WebGPUTexture.cpp:100-106 | as written, an aligned mip narrower than the base is uploaded with the base stride, so it stages more bytes than the mip holds |
| WebGPU.MipUploads | Siv3D/src/Siv3D-Platform/WebGPU/Siv3D/Texture/WebGPU/WebGPUTexture.cpp:100-115 | one upload per mip level, with each mip's own stride |
| WebGPU.MipUploadsLayout | Siv3D/src/Siv3D-Platform/WebGPU/Siv3D/Texture/WebGPU/WebGPUTexture.cpp:100-115 | every corrected mip upload copies the mip's extent into level i + 1 and meets the 256-byte bytesPerRow rule |
| WebGPU.Gathered | Siv3D/src/Siv3D-Platform/WebGPU/Siv3D/Texture/WebGPU/WebGPUTexture.cpp:562-579 | the gathered region has w * h texels |
| WebGPU.GatheredAt | Siv3D/src/Siv3D-Platform/WebGPU/Siv3D/Texture/WebGPU/WebGPUTexture.cpp:562-579 | entry j * w + i of the packed buffer is `src[(stride / 4) * (rect.y + j) + rect.x + i]`, and that source index is in range |
| WebGPU.GatheredStep | Siv3D/src/Siv3D-Platform/WebGPU/Siv3D/Texture/WebGPU/WebGPUTexture.cpp:571-579 | each pass of the row loop appends that row's w texels, read from `line + x`, after the rows before it |
| WebGPU.GatherRegion | Siv3D/src/Siv3D-Platform/WebGPU/Siv3D/Texture/WebGPU/WebGPUTexture.cpp:562-579 | the nested loop through pDst produces exactly the gathered region, w * h texels |
| WebGPU.CopyRow | Siv3D/src/Siv3D-Platform/WebGPU/Siv3D/Texture/WebGPU/WebGPUTexture.cpp:575-578 | the inner loop copies w consecutive texels of a source row and keeps what was written before |
| WebGPU.WebGPUTexture.FromImage | Siv3D/src/Siv3D-Platform/WebGPU/Siv3D/Texture/WebGPU/WebGPUTexture.cpp:20-62 | a Default texture of the image size in the RGBA8 format chosen by the sRGB flag; it makes one creation and then the image upload at level 0, and it is initialized without depth |
| WebGPU.WebGPUTexture.FromImageMipmaps | Siv3D/src/Siv3D-Platform/WebGPU/Siv3D/Texture/WebGPU/WebGPUTexture.cpp:64-121 | creates a texture with 1 + mipmaps.size() levels, uploads the base image and then mip i into level i + 1, an aligned mip with the base image's stride as the source writes it, and records the type Dynamic |
| WebGPU.WebGPUTexture.NewDynamic | Siv3D/src/Siv3D-Platform/WebGPU/Siv3D/Texture/WebGPU/WebGPUTexture.cpp:124-150 | a Dynamic texture with no format check: one creation, then an upload with rows of width * pixelSize bytes |
| WebGPU.WebGPUTexture.NewRender | Siv3D/src/Siv3D-Platform/WebGPU/Siv3D/Texture/WebGPU/WebGPUTexture.cpp:152-190 | the Unknown format leaves it uninitialized with no device call; any other format creates the colour texture, then the depth texture when asked, and initializes it |
| WebGPU.WebGPUTexture.NewRenderFromImage | Siv3D/src/Siv3D-Platform/WebGPU/Siv3D/Texture/WebGPU/WebGPUTexture.cpp:192-245 | only the RGBA8 formats are accepted, with no call otherwise; the image is uploaded at level 0 when aligned and at level 9 when padded, then the depth texture follows when asked |
| WebGPU.WebGPUTexture.NewRenderFromGrid | Siv3D/src/Siv3D-Platform/WebGPU/Siv3D/Texture/WebGPU/WebGPUTexture.cpp:247-372 | only the grid's own float format is accepted, with no call otherwise; rows are uploaded width * sizeof(element) bytes apart, then the depth texture follows when asked |
| WebGPU.WebGPUTexture.NewMSRender | Siv3D/src/Siv3D-Platform/WebGPU/Siv3D/Texture/WebGPU/WebGPUTexture.cpp:374-429 | the Unknown format fails with no call; otherwise it creates a 4-sample texture and a 1-sample texture, then a 4-sample depth texture when asked |
| WebGPU.WebGPUTexture.IsInitialized | Siv3D/src/Siv3D-Platform/WebGPU/Siv3D/Texture/WebGPU/WebGPUTexture.cpp:435-438 | only a render texture can be left uninitialized, and then it has no depth buffer |
| WebGPU.WebGPUTexture.GetTexture | Siv3D/src/Siv3D-Platform/WebGPU/Siv3D/Texture/WebGPU/WebGPUTexture.cpp:440-443 | the native texture is non-null exactly when the texture is initialized |
| WebGPU.WebGPUTexture.GetSize | Siv3D/src/Siv3D-Platform/WebGPU/Siv3D/Texture/WebGPU/WebGPUTexture.cpp:445-448 | a Default texture has the non-negative size of its image |
| WebGPU.WebGPUTexture.GetDesc | Siv3D/src/Siv3D-Platform/WebGPU/Siv3D/Texture/WebGPU/WebGPUTexture.cpp:450-453 | a Default texture's desc is sRGB exactly when its format is the sRGB one |
| WebGPU.WebGPUTexture.GetFormat | Siv3D/src/Siv3D-Platform/WebGPU/Siv3D/Texture/WebGPU/WebGPUTexture.cpp:455-458 | a Default texture is RGBA8, and an initialized render texture has a known format |
| WebGPU.WebGPUTexture.HasDepth | Siv3D/src/Siv3D-Platform/WebGPU/Siv3D/Texture/WebGPU/WebGPUTexture.cpp:460-463 | only an initialized render texture has a depth buffer |
| WebGPU.WebGPUTexture.UploadImage | Siv3D/src/Siv3D-Platform/WebGPU/Siv3D/Texture/WebGPU/WebGPUTexture.cpp:44-55 | issues exactly the image upload for the given aligned stride and levels |
| WebGPU.WebGPUTexture.InitDepthBuffer | Siv3D/src/Siv3D-Platform/WebGPU/Siv3D/Texture/WebGPU/WebGPUTexture.cpp:764-808 | requires no depth yet and a Render or MSRender type; creates a Depth32Float texture of the texture size with 4 samples only for MSRender, stores it in `texture`, sets hasDepth and returns true |
| WebGPU.WebGPUTexture.CopyToTexture | Siv3D/src/Siv3D-Platform/WebGPU/Siv3D/Texture/WebGPU/WebGPUTexture.cpp:810-850 | appends exactly one staged copy into `texture` |
| WebGPU.WebGPUTexture.Fill | Siv3D/src/Siv3D-Platform/WebGPU/Siv3D/Texture/WebGPU/WebGPUTexture.cpp:465-482 | succeeds exactly for a Dynamic texture with a non-empty colour buffer, and then uploads the whole texture; otherwise no call is made |
| WebGPU.WebGPUTexture.FillRegion | Siv3D/src/Siv3D-Platform/WebGPU/Siv3D/Texture/WebGPU/WebGPUTexture.cpp:484-530 | succeeds exactly for a Dynamic texture and a region ending inside it, and then writes the region's w x h pixels at (rect.x, rect.y) with rect.w * pixelSize bytes per row; otherwise no call is made |
| WebGPU.WebGPUTexture.FillImage | Siv3D/src/Siv3D-Platform/WebGPU/Siv3D/Texture/WebGPU/WebGPUTexture.cpp:532-550 | succeeds exactly for a Dynamic RGBA8 texture, and then uploads the whole texture; otherwise no call is made |
| WebGPU.WebGPUTexture.FillRegionImage | Siv3D/src/Siv3D-Platform/WebGPU/Siv3D/Texture/WebGPU/WebGPUTexture.cpp:552-618 | succeeds exactly for a Dynamic RGBA8 texture; an empty region makes no call; otherwise the gathered texels are written at the region origin with rect.w * pixelSize bytes per row |
| WebGPU.WebGPUTexture.ClearRT | Siv3D/src/Siv3D-Platform/WebGPU/Siv3D/Texture/WebGPU/WebGPUTexture.cpp:620-626 | the body past the type check is reached exactly for Render and MSRender textures |
| WebGPU.WebGPUTexture.ReadRT | Siv3D/src/Siv3D-Platform/WebGPU/Siv3D/Texture/WebGPU/WebGPUTexture.cpp:656-747 | the destination is resized to the texture size exactly when the type is Render or MSRender and the format suits the destination; otherwise it is untouched |
| WebGPU.WebGPUTexture.ResolveMSRT | Siv3D/src/Siv3D-Platform/WebGPU/Siv3D/Texture/WebGPU/WebGPUTexture.cpp:749-754 | the body past the type check is reached exactly for MSRender textures |
| WebGPU.DepthCreation | Siv3D/src/Siv3D-Platform/WebGPU/Siv3D/Texture/WebGPU/WebGPUTexture.cpp:181-187 | one depth creation exactly when depth is requested |

## Left out

- The effects of wgpu (`CreateTexture`, `CreateBuffer`, `memcpy` into the mapped range, command encoding, `WriteTexture`, `Submit`) and of OpenGL (`glBindSampler`, `glSamplerParameter*`) are foreign calls. They are modelled only as entries of a call log. Texture usage flags are not recorded.
- Pixel contents of images, grids and colour buffers are not modelled. Only their dimensions and the upload layout are, except for the texels `fillRegion(src)` gathers. `GenerateInitialColorBuffer` (TextureCommon) is not part of this model: the colour buffer it returns is a parameter of `Fill` and `FillRegion`.
- The read-back and clear bodies of `clearRT`, `readRT` and `resolveMSRT` are commented out in the source. Only their type and format checks are modelled.
- `LOG_FAIL` messages and the debug `assert`s are not modelled. The asserts of `initDepthBuffer` and `setPS` become preconditions.
- Floating point is not modelled: `RectF`, `scaled`, `scaledAt`, `center()`, `ColorF`, `Formatter(double)` and `FormatFloat`. Sampler `lodBias`, `maxAnisotropy` and the border colour are opaque values that only take part in state equality.
- Pointer formatting (`ToHex`, pointer width) and the Windows UTF-16 branch of `Formatter(char32_t)` are not modelled. A Dafny `char` is a Unicode scalar value, so a `char16_t` that is a lone surrogate, and a `char32_t` that is a surrogate or above 0x10FFFF, cannot be passed to `AppendChar16` or `AppendChar32`. The source appends those unchanged.
- `Rectangle`'s `operator>>`, `fmt` support and the float members are not modelled. The many overloads of `set` and `setPos` that forward to the modelled ones are represented by those.
- `Rect.Tl`, `Rect.Tr`, `Rect.Bl`, `Rect.StretchedBy`, `Rect.StretchedXY`, `Square`, `AtOrigin` and `FromTopLeft` are plain definitions without contracts of their own. What they mean is stated by `AnchorRoundTrip`, `CornersSpanSize`, `OriginConstructors` and `StretchedOverloads`.
- Format.AppendInt: the value must lie strictly between -2^31 and 2^31. Its 12-character buffer holds a 32-bit `long`, and `-value` is undefined for LONG_MIN.
- Only the staging size of `copyToTexture` is computed with 32-bit wrap-around. The other int32/uint32 conversions are not modelled: rectangle arithmetic, `size.x * pixelSize`, `rect.w * pixelSize` and the casts of origins and extents.
- The deletion of native samplers when the cache is cleared (the `SamplerState_GL` destructor) is not logged. The `create` failure branch of `setPS` cannot be taken, because emplace always yields an entry.
- GL4Sampler.GL4SamplerState.Create: it requires that the state is not cached, which is the only way `setPS` calls it.
- `SamplerState::MaxSamplerCount` and the pixel sizes of texture formats are defined in headers that are not part of this model. The slot count is a constructor parameter. Pixel sizes are the standard sizes of the formats: 4 bytes, 8 bytes for R16G16B16A16_Float and R32G32_Float, and 16 bytes for R32G32B32A32_Float.
- WebGPU.WebGPUTexture.FillRegionImage: requires a non-empty region to have non-negative coordinates, positive extents and to lie inside the source buffer; the source then reads outside src, or passes wrapped origins or extents to WriteTexture. It also requires rect.w * rect.h not to be negative, since the source then sizes its array from a negative count. An empty region with negative fields is accepted and succeeds without an upload, as in the source.
- The order in which the constructors assign `m_initialized` relative to their other fields is not observable in the model. Only the final values are stated.

## Findings

| source | as written | input that shows it | evidently intended | confidence | as-written member | corrected member |
|---|---|---|---|---|---|---|
| Siv3D/src/Siv3D-Platform/WebGPU/Siv3D/Texture/WebGPU/WebGPUTexture.cpp:103-105 | an aligned mip level is uploaded with the base image's `image.stride()` as bytesPerRow | a base 129 pixels wide with a 64-pixel mip: bytesPerRow 516, which breaks the 256-byte rule the padding at :42-55 exists for, and a staged buffer larger than the mip's pixels | `mipmap.stride()` | high, not executed | WebGPU.MipStrideBreaksRowRule | WebGPU.MipUploadsLayout |
