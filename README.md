# TexQuad texture lifecycle and GPU memory probe, in Dafny

This project models the texture core of the 4K Displaywall Bench (`TexQuad.cpp`) and the diagnostic helpers it relies on (`util.h`). The model proves properties about them.

A `TexQuad` is one image drawn as a textured quad. It works as follows:
- It caches the decoded PNG pixels and owns one GL texture name.
- With mipmapping and manual mipmapping both on, its constructor builds six colour-coded synthetic mip buffers.
- `Load` decodes the image only when no pixels are cached. It then generates a texture and allocates immutable storage: `floor(log2(min(W, H)))` levels when mipmapping is on, one level otherwise. It uploads level 0 from the image. Without mipmapping that is all. With mipmapping it then either asks the driver for mipmaps or uploads levels 1, 2, … itself. The manual loop halves the sides with truncation and reads buffer `l mod 6` for level `l`.
- `Update` picks the scale vector from the window and image aspects.

The helpers in `util.h` are:
- `query_memory` classifies the GL vendor string by case-sensitive substring search and dispatches to the NVIDIA or AMD probe.
- Each probe returns the reading in whole MB in test mode, and 0.0 otherwise.
- `decode_png_image` turns the decoder's error code into a boolean.

Modules:

- `MipLevels`: the level arithmetic of `Load`. `FloorLog2` gives the storage level count. `ManualLevels` and `LevelSize` give the closed form of the manual loop: level `l` is `W div 2^l` by `H div 2^l`. The lemmas link the loop's stopping rule to that closed form.
- `MipImages`: the six fill colours and the exact contents of a painted buffer.
- `GlState`: the GL context as abstract state. It holds the set of live texture names, the name bound to `GL_TEXTURE_2D` on unit 0, and a log of the parameter, storage, upload and mipmap calls made on the bound texture.
- `UploadStrategy`: the call sequence `Load` issues for a new texture (`LoadCalls`) and the manual chain in closed form (`ManualChain`), with their lemmas.
- `Placement`: the aspect-correction rule of `Update`, over reals.
- `Util`: substring search, vendor classification, the probes, `query_memory` and the decode result mapping. A class `Util` holds the static `in_test_mode` flag.
- `Texture`: the class `TexQuad`, whose methods change its own fields and the shared `Gl` object.

Behaviours of the source that the model makes explicit:

- **The last pixel is never painted.** The painting loop counts pixels from `k = 1`, so it writes `dim*dim - 1` pixels from the start of the buffer. The last pixel keeps what `resize` left there: zero for a fresh buffer (`MipImages.MipImagePixels`).
- **The level count can be zero.** With mipmapping on and a smaller side of 1, `num_mips` is 0 and `GL_TEXTURE_MAX_LEVEL` becomes -1. The recorded `Storage` call then asks for 0 levels (`MipLevels.MaxLevel`).
- **The manual chain starts at buffer 1.** Level 1 reads buffer 1, not buffer 0. The last level uploaded is exactly `num_mips - 1`, where both halved sides are still at least 2. For a 512 × 256 image, levels 1 to 7 run from 256 × 128 down to 4 × 2, and level 7 reuses buffer 1 (`UploadStrategy.Chain512By256`).
- **`Load` leaks the previous name.** Each successful `Load` generates a fresh name and never deletes the previous one (`Texture.ReloadKeepsPreviousName`). `Unload` deletes the name but keeps both the name and the cached pixels.
- **Vendor matching is a plain, case-sensitive substring search.** `"Intel Corporation"` contains `"ati"`, so it selects the AMD probe. `"ATI Technologies Inc."` and `"AMD"` match nothing.
- **`query_memory` can return nothing.** In test mode with an unmatched vendor, control falls off the end of the function, so no value is defined. The model returns `None` there.

## Model

| member | source | states |
|---|---|---|
| MipLevels.FloorLog2 | TexQuad.cpp:143 | the converted `log2` of a positive side is the k with 2^k <= n < 2^(k+1) |
| MipLevels.MaxLevel | TexQuad.cpp:139-146 | the `GL_TEXTURE_MAX_LEVEL` value is at least -1, is -1 exactly when the smaller side is 1, and satisfies 2^(m+1) <= min(W,H) < 2^(m+2) |
| MipLevels.Pow2AtMost | TexQuad.cpp:143 | 2^j fits in n exactly when j <= floor(log2 n) |
| MipLevels.HalveLevel | TexQuad.cpp:166-167 | halving a level's side with truncation gives the next level's side: (W div 2^l) div 2 = W div 2^(l+1) |
| MipLevels.LevelAboveOne | TexQuad.cpp:158 | a level's side exceeds 1 exactly when 2^(l+1) <= W |
| MipLevels.ContinueIff | TexQuad.cpp:157-158 | the loop guard `w > 1 && h > 1`, checked after l uploads, holds exactly when l < floor(log2 min(W,H)) - 1 |
| MipLevels.DivUnique | TexQuad.cpp:166-167 | helper of HalveLevel: a quotient and remainder in range determine the result of integer division |
| MipImages.MipImagePixels | TexQuad.cpp:103-119 | buffer i has dim*dim*4 bytes, pixels 0 .. dim*dim-2 equal fill colour i, and the last pixel is 0,0,0,0 |
| GlState.Gl.GenTexture | TexQuad.cpp:134 | `glGenTextures` yields a nonzero name that was not live, and adds it to the live set |
| GlState.Gl.DeleteTexture | TexQuad.cpp:178 | `glDeleteTextures` removes the name from the live set and resets the binding to 0 when it deletes the bound texture |
| GlState.Gl.BindTexture | TexQuad.cpp:135 | `glBindTexture` makes the name the bound one |
| GlState.Gl.Record | TexQuad.cpp:141-171 | a texture call on the bound texture is appended to the call log |
| UploadStrategy.ManualChainShape | TexQuad.cpp:139-168 | each manual upload targets a storage level 1 .. num_mips-1 with both sides >= 2 from buffer `level mod 6`; the chain is empty exactly when min(W,H) < 4, ends at `GL_TEXTURE_MAX_LEVEL`, and starts with level 1, half size, buffer 1 |
| UploadStrategy.ManualChainHalves | TexQuad.cpp:157-168 | consecutive manual levels halve both sides with truncation |
| UploadStrategy.LevelSizeShrinks | TexQuad.cpp:166-167 | higher levels are never larger |
| UploadStrategy.ManualReadsFitBuffers | TexQuad.cpp:111-113 | every manual upload reads within the dim*dim synthetic buffers exactly when the first one does ((W div 2)·(H div 2) <= dim²) |
| UploadStrategy.LoadReadsBuffersOnlyWhenManual | TexQuad.cpp:155-171 | among Load's calls, only uploads made with both mipmap flags on read a synthetic buffer, and always one of the six |
| UploadStrategy.Log2Of256 | TexQuad.cpp:143 | helper of Chain512By256: floor(log2 256) = 8, with the powers of two the chain's level sizes need |
| UploadStrategy.Chain512By256 | TexQuad.cpp:139-168 | a 512 x 256 image gets 8 storage levels, max level 7, and manual levels from 256x128 (buffer 1) down to 4x2 (buffer 1) |
| Placement.ImageAspect | TexQuad.cpp:188 | the image aspect times the height is the width, and it is positive for a positive width |
| Placement.QuadScale | TexQuad.cpp:190-195 | arrange mode keeps the base scale; otherwise a landscape window keeps y and a portrait or square window keeps x, and the x : y ratio becomes the base ratio times the image aspect |
| Placement.QuadScaleExamples | TexQuad.cpp:190-195 | with a 2:1 image, a 1.5 window doubles x, a 0.5 or 1.0 window halves y, and arrange mode keeps both |
| Util.DecodePngImage | util.h:134-143 | `decode_png_image` succeeds exactly when the decoder's error code is 0 |
| Util.FindFrom | util.h:121-126 | the result is the first occurrence at or after the start, or none when there is no occurrence there |
| Util.Find | util.h:121-126 | `std::string::find` gives npos exactly when the pattern does not occur, and otherwise the first occurrence |
| Util.ClassifyVendor | util.h:121-126 | NVIDIA exactly when "nvidia" or "NVIDIA" occurs; AMD exactly when neither does and "ati" or "amd" occurs |
| Util.ProbeReading | util.h:95-100 | a probe returns 0.0 outside test mode; in test mode it returns a whole number, the reading divided by 1024 truncated toward zero |
| Util.MemoryReading | util.h:115-131 | no value exactly in test mode with no matching vendor; 0.0 outside test mode; the NVIDIA reading when an NVIDIA pattern occurs; the AMD reading for an AMD match |
| Util.AbsentChar | util.h:121-126 | helper of the vendor-string lemmas: a pattern with a character the string lacks is not found |
| Util.NvidiaDriverString | util.h:121-123 | "NVIDIA Corporation" selects the NVIDIA probe |
| Util.IntelDriverStringIsAmd | util.h:124-126 | "Intel Corporation" selects the AMD probe, since "Corporation" contains "ati" |
| Util.AtiDriverStringIsUnsupported | util.h:124-131 | "ATI Technologies Inc." and "AMD" match nothing, so `query_memory` has no value in test mode and 0.0 outside it |
| Util.Util.constructor | util.h:26 | the static test-mode flag starts as given (its definition is outside util.h) |
| Util.Util.QueryGpuMemUsageNvidia | util.h:89-101 | the NVIDIA probe returns the available-memory reading per the test-mode rule; the eviction reading does not affect the result |
| Util.Util.QueryGpuMemUsageAmd | util.h:103-113 | the AMD probe returns the first free-memory reading per the test-mode rule |
| Util.Util.QueryMemory | util.h:115-131 | records the test mode, then returns what `MemoryReading` specifies for the vendor string and readings |
| Texture.InitialMips | TexQuad.cpp:63-69 | there are always six buffers; all are painted when both flags are on, and all are empty otherwise |
| Texture.LoadReadsGeneratedBuffers | TexQuad.cpp:63-69 | every synthetic buffer Load's calls read exists and holds its generated image |
| Texture.WritePixel | TexQuad.cpp:116-117 | copying the colour through the iterator sets exactly the four bytes at the iterator |
| Texture.PaintBuffer | TexQuad.cpp:113-118 | one buffer is resized to dim*dim*4 bytes, keeping old bytes and zero-filling new ones; every pixel but the last is then painted |
| Texture.TexQuad.constructor | TexQuad.cpp:50-70 | stores the arguments, leaves the pixels uncached, and establishes the class invariant, including six buffers that are painted only when both flags are on |
| Texture.TexQuad.Placeholder | TexQuad.cpp:72-90 | as the image constructor, with an empty image path |
| Texture.TexQuad.GenerateManualMips | TexQuad.cpp:97-120 | each of the six buffers becomes its painted form in the fill colour of its index |
| Texture.TexQuad.Load | TexQuad.cpp:122-175 | decodes (and counts a decode) only when nothing is cached; on failure or no pixels it changes no GL state and keeps the name; otherwise it has a fresh live name, issues exactly `LoadCalls` and leaves nothing bound; the invariant is kept |
| Texture.TexQuad.UploadLevels | TexQuad.cpp:139-172 | the calls on the new texture are the min filter, the max level when mipmapping, the storage and level 0, then the manual chain or a mipmap request |
| Texture.TexQuad.UploadManualLevels | TexQuad.cpp:157-168 | the manual loop issues exactly the closed-form `ManualChain` |
| Texture.TexQuad.Setup | TexQuad.cpp:181-183 | has the same effect as Load |
| Texture.TexQuad.Unload | TexQuad.cpp:177-179 | removes the name from the live set and unbinds it if it was bound; the name and pixels stay |
| Texture.TexQuad.Destroy | TexQuad.cpp:92-95 | the destructor has exactly the effect of Unload |
| Texture.TexQuad.Bind | TexQuad.cpp:201-205 | the quad's name is bound |
| Texture.TexQuad.Unbind | TexQuad.cpp:207-210 | nothing is bound |
| Texture.TexQuad.Update | TexQuad.cpp:185-199 | the scale is the base scale in arrange mode, whatever the image size; (sx·W/H, sy) in a landscape window, and (sx, sy·H/W) otherwise |
| Texture.LoadTwiceDecodesOnce | TexQuad.cpp:126-127 | after a successful first Load, a second Load does not decode again and keeps the first pixels |
| Texture.ReloadKeepsPreviousName | TexQuad.cpp:134 | two successful Loads leave two distinct live names; the first is leaked |
| Texture.UnloadTwiceIsHarmless | TexQuad.cpp:177-179 | a second Unload leaves the live set as the first left it |

## Left out

- Real GL calls are not modelled. The wrap and mag-filter parameters and `GL_TEXTURE_BASE_LEVEL` (TexQuad.cpp:136-138, 142) set nothing the model observes. The log records only the min filter, max level, storage, uploads and mipmap request.
- The `glfwGetProcAddress` lookup in GenerateManualMips has no effect and is left out.
- The branches without `STORAGE` (TexQuad.cpp:153, 163) are compiled out by `#define STORAGE` and are left out.
- Update's matrix composition, the `view` product and the uniform write are left out. These are float matrix maths in a library this model does not include.
- IEEE float behaviour is not modelled. Aspects and scales are reals, and `(GLint) log2(x)` is taken as the exact floor of log2, which holds for sides below 2^31.
- The PNG decoding inside lodepng is not modelled. Its result `(error, pixels, width, height)` is an input to Load. Load requires that a nonempty pixel buffer comes with positive sides, which the decoder guarantees.
- GL readings and the vendor string are parameters of the probes and of `QueryMemory`, not GL queries.
- Logging to the console is left out, including the decoder error text.
- Shader compilation, program linking and shader file loading are left out, as are the unused `blit`, `blit_rect` and `compress` flags.
- TexQuad.h is not part of this model. The initial texture name is a constructor parameter, and `view` and `uniform_modelview` are not modelled.
- The buffer side is a parameter (`mipDim`, 4096 in the source), so the model does not fix the buffer size.
- Only texture unit 0 is modelled. `glActiveTexture(GL_TEXTURE0)` in Bind is implied.
- Widths and heights are unbounded naturals. Passing the `unsigned` sides as `GLsizei` to `glTexStorage2D` and `glTexSubImage2D` (TexQuad.cpp:150-151) would overflow for a side of 2^31 or more; the model records the sides unchanged.
- Placement.QuadScale: the x : y ratio clause says nothing when a base component is 0. The exact components are stated by Texture.TexQuad.Update.
- Texture.TexQuad.Update: outside arrange mode it requires positive image sides. With a zero side (no image loaded) the source divides by zero in float and builds an inf/NaN scale, which the model does not represent. Arrange mode needs no image and is covered for any sides.
