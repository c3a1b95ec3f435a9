# NRC-HPM-Renderer in Dafny

A model of the NRC-HPM-Renderer repository and proofs about it. The repository is a Vulkan renderer for heterogeneous participating media (HPM), such as clouds. It trains a small neural radiance cache (NRC) on the GPU through the Kompute library. The project also has two Python scripts that build a parameter sweep for the renderer and run it once per configuration.

What the model covers:

- **Sweep scripts** (`NRC_Hpm_Bench.py`, `win_bench.py`):
  - the Cartesian product of the option lists, in `itertools.product` order;
  - the line format of the config file;
  - reading the lines back and the command line each run issues;
  - the order of the `main` steps.
- **Command line** (`AppConfig.cpp`): the twelve positional arguments, and the encoding and scene presets.
- **Vulkan host logic** (`VulkanAPI.cpp`, `Buffer.cpp`, `CommandPool.cpp`):
  - memory-type and format selection;
  - physical-device selection;
  - the mapped flag of a buffer and its byte contents;
  - the command buffers held by a pool.
- **Textures and materials** (`Texture2D.cpp`, `Texture3D.cpp`, `HdrEnvMap.cpp`, `Material.cpp`):
  - the two-step image-layout machine;
  - the linearisation of texel data into a staging array;
  - the raw sizes;
  - the clamps of the environment map;
  - the descriptor binding of a material.
- **Compute** (`Tensor.cpp`, `Vector.cpp`, `Dataset.cpp` and the seven `*Op.cpp` files):
  - host-side shape checks, push constants and workgroups;
  - what one shader invocation stores, element by element.
- **Renderers** (`SimpleModelRenderer.cpp`, `NrcHpmRenderer.cpp`):
  - the instance list and the draws recorded for it;
  - the network buffers and their descriptor bindings;
  - the upload of a network's linear layers.
- **Scene loading and input** (`Model.cpp`, `Input.cpp`):
  - the scene-graph walk;
  - mesh building;
  - the texture cache;
  - mouse tracking and camera control.
- **Neural radiance cache** (`NeuralRadianceCache.cpp`): the encoding setters, the buffer-size formulas and the buffer initialisation.

How the model is built:

- Each source file is one Dafny module. Shared helpers live in `Wrappers` (`Outcome`, `Option`), `MachineInts` (machine-integer wrap-around), `Sweep`, `ImageLayouts`, `TexelOffsets` and `Matrices`.
- `Log::Error(msg, true)` aborts, so it becomes an `Err(msg)` outcome carrying the source's own message.
- `uint32_t` and `size_t` arithmetic is wrapped explicitly where it can overflow.
- Floats are reals, except in the backward linear-layer shader, which tests for NaN and infinity.
- Objects whose fields the source updates in place are classes with `modifies` clauses. Shader buffers written in place are arrays.
- Vulkan, GLFW, the file system, the clock and the random generator are not called. What they return is passed in as parameters, and the calls they receive are returned as records.

## Model

| member | source | states |
|---|---|---|
| Sweep.ProductLength | NRC-Hpm-Bench/NRC_Hpm_Bench.py:67-80 | the number of tuples `itertools.product` yields is the product of the option-list lengths |
| Sweep.ProductAt | NRC-Hpm-Bench/NRC_Hpm_Bench.py:67-79 | odometer order: the tuple chosen by option positions `c` sits at the mixed-radix index of `c`, last list least significant |
| Sweep.LastAxisFastest | NRC-Hpm-Bench/NRC_Hpm_Bench.py:67-79 | advancing the last list's option moves one position forward in the product |
| Sweep.NextOnLastAxis | NRC-Hpm-Bench/NRC_Hpm_Bench.py:67-79 | consecutive tuples that advance the last list agree on every other component |
| Sweep.FirstAxisSlowest | NRC-Hpm-Bench/NRC_Hpm_Bench.py:67-79 | advancing the first list's option jumps by the product of all later list lengths |
| Sweep.AxisStep | NRC-Hpm-Bench/NRC_Hpm_Bench.py:67-79 | advancing the option of list i, whichever list it is, jumps by the product of the lengths of the lists after it |
| Sweep.ProductMember | NRC-Hpm-Bench/NRC_Hpm_Bench.py:67-79 | every generated tuple has one component per list, drawn from that list |
| Sweep.ConsAll | NRC-Hpm-Bench/NRC_Hpm_Bench.py:67-79 | one option put in front of every tail, in order, preserving the count |
| Sweep.SerializedAll | NRC-Hpm-Bench/NRC_Hpm_Bench.py:85-89 | entry `index` of the list is replaced by its serialised string and the list keeps its length |
| Sweep.SerializedSnoc | NRC-Hpm-Bench/NRC_Hpm_Bench.py:87-88 | each `+=` of the inner loop appends the value followed by one space |
| Sweep.ConfigFileSnoc | NRC-Hpm-Bench/NRC_Hpm_Bench.py:91 | each written line is followed by exactly one newline |
| Sweep.SerializedEnding | NRC-Hpm-Bench/NRC_Hpm_Bench.py:86-88 | a serialised non-empty tuple ends in exactly one space, preceded by a non-space |
| Sweep.SerializedNoLineBreak | NRC-Hpm-Bench/NRC_Hpm_Bench.py:86-88 | a serialised tuple of words contains neither a newline nor a carriage return |
| Sweep.TokensOfWord | NRC-Hpm-Bench/NRC_Hpm_Bench.py:88 | `split()` of a word, a space and a rest gives the word then the rest's tokens |
| Sweep.TokensOfSerialized | NRC-Hpm-Bench/NRC_Hpm_Bench.py:86-88 | splitting a serialised tuple followed by anything gives back the tuple, then the rest's tokens |
| Sweep.TokensOfSpaces | NRC-Hpm-Bench/NRC_Hpm_Bench.py:88 | a string of whitespace splits into no tokens |
| Sweep.LineTokens | NRC-Hpm-Bench/NRC_Hpm_Bench.py:86-91 | splitting a written line on whitespace yields exactly the tuple's components, in order |
| Sweep.UniversalNewlines | NRC-Hpm-Bench/NRC_Hpm_Bench.py:109-110 | reading a text file turns `\r\n` and a lone `\r` into `\n`, so the text read holds no carriage return |
| Sweep.UniversalNewlinesIdentity | NRC-Hpm-Bench/NRC_Hpm_Bench.py:109-110 | text without a carriage return is read back unchanged |
| Sweep.ReadLinesCarriageReturns | NRC-Hpm-Bench/NRC_Hpm_Bench.py:109-110 | `readlines` of `a\r\nb\rc` is `a\n`, `b\n`, `c`: both Windows and old Mac line ends end a line and read as `\n` |
| Sweep.SplitLinesOfConfigFile | NRC-Hpm-Bench/NRC_Hpm_Bench.py:109-110 | splitting the written file after each newline gives every line, in order, with its newline |
| Sweep.ConfigFileNoReturn | NRC-Hpm-Bench/NRC_Hpm_Bench.py:91 | the written file holds no carriage return when its lines hold no line break |
| Sweep.ReadLinesOfConfigFile | NRC-Hpm-Bench/NRC_Hpm_Bench.py:109-110 | `readlines` of the written file gives back every line, in order, with its newline |
| Sweep.Joined | NRC-Hpm-Bench/NRC_Hpm_Bench.py:116 | the stripped line plus one space is the serialised string |
| Sweep.StripLine | NRC-Hpm-Bench/NRC_Hpm_Bench.py:116 | `strip()` of a written line removes the newline and the trailing space and nothing else |
| Sweep.JoinedTokens | NRC-Hpm-Bench/NRC_Hpm_Bench.py:116 | the stripped line still splits into exactly the tuple |
| Sweep.TokensOfTrailingSpace | NRC-Hpm-Bench/NRC_Hpm_Bench.py:88 | one trailing space does not change the tokens |
| Sweep.Command | NRC-Hpm-Bench/NRC_Hpm_Bench.py:101 | the command is `NRC-HPM-Renderer`, one space, then the arguments unchanged |
| Sweep.CommandTokens | NRC-Hpm-Bench/NRC_Hpm_Bench.py:101 | Python's `split()` of the command gives the renderer name followed by exactly the tuple's components |
| Sweep.SerializeArguments | NRC-Hpm-Bench/NRC_Hpm_Bench.py:86-88 | the inner `+=` loop builds the serialised string of the tuple |
| Sweep.WriteConfigs | NRC-Hpm-Bench/NRC_Hpm_Bench.py:67-94 | the reported count is the product of the list lengths and the file holds every serialised tuple in product order, one per line |
| Sweep.ExecuteConfig | NRC-Hpm-Bench/NRC_Hpm_Bench.py:97-101 | a run records its index and the command handed to the shell |
| Sweep.RunsOf | NRC-Hpm-Bench/NRC_Hpm_Bench.py:115-118 | one run per line read, in file order |
| Sweep.ExecuteConfigs | NRC-Hpm-Bench/NRC_Hpm_Bench.py:106-118 | a missing file is an error and only then; otherwise run k carries index k and the command for line k stripped |
| Sweep.RoundTrip | NRC-Hpm-Bench/NRC_Hpm_Bench.py:83-118 | executing the generated file runs every tuple once, in product order, at its own index, with exactly the tuple's components as arguments |
| Sweep.EmptyFileNoRuns | NRC-Hpm-Bench/NRC_Hpm_Bench.py:109-118 | an empty config file gives zero runs and no error |
| NrcHpmBench.Axes | NRC-Hpm-Bench/NRC_Hpm_Bench.py:54-79 | twelve option lists in the order passed to `itertools.product` |
| NrcHpmBench.ConfigCount | NRC-Hpm-Bench/NRC_Hpm_Bench.py:54-80 | the sweep has 864 configurations |
| NrcHpmBench.OptionsAreWords | NRC-Hpm-Bench/NRC_Hpm_Bench.py:54-65 | every option value is one non-empty word without Python whitespace |
| NrcHpmBench.GenerateConfigs | NRC-Hpm-Bench/NRC_Hpm_Bench.py:51-94 | reports 864 and writes `configs.csv` with every serialised tuple; no other file changes |
| NrcHpmBench.GenerateAndExecute | NRC-Hpm-Bench/NRC_Hpm_Bench.py:125-131 | generate then execute gives 864 runs, run k passing tuple k's twelve values in order |
| NrcHpmBench.LearningRateBlock | NRC-Hpm-Bench/NRC_Hpm_Bench.py:67-79 | advancing the learning rate skips a block of 216 configurations (all later lists) |
| WinBench.Axes | WinBench/win_bench.py:41-70 | fourteen option lists in the order passed to `itertools.product` |
| WinBench.ConfigCount | WinBench/win_bench.py:41-71 | the sweep has 4608 configurations |
| WinBench.OptionsAreWords | WinBench/win_bench.py:41-54 | every option value is one non-empty word without Python whitespace |
| WinBench.GenerateStage1Configs | WinBench/win_bench.py:38-85 | reports 4608 and writes `configs.txt` with every serialised tuple; no other file changes |
| WinBench.StageAndGenerate | WinBench/win_bench.py:116-121 | `main` runs nothing; it writes `configs.txt` holding every serialised tuple, one per line, and leaves every other file, `configs.csv` included, as it was |
| WinBench.GenerateThenExecute | WinBench/win_bench.py:97-109 | executing after generating reads `configs.csv`: an error when it is absent, else the runs of whatever it holds |
| WinBench.RoundTripBroken | WinBench/win_bench.py:74-100 | from a directory without `configs.csv`, generate-then-execute fails although `configs.txt` was written |
| WinBench.GenerateThenExecuteGenerated | WinBench/win_bench.py:74-109 | executing the generated file gives 4608 runs, run k passing tuple k's fourteen values in order |
| Config.DigitRun | src/AppConfig.cpp:78 | the digits `stoi` consumes form the longest run of decimal digits at the start |
| Config.ParseInt | src/AppConfig.cpp:77-87 | `std::stoi` either fails or yields a value within the 32-bit `int` range |
| Config.IntOfDigits | src/AppConfig.cpp:77-87 | a signed digit run converts only when it fits a 32-bit `int` |
| Config.FiniteResult | src/AppConfig.cpp:76 | a magnitude out of float range is the `out_of_range` error, any other gives the signed value |
| Config.FloatValue | src/AppConfig.cpp:76 | `std::stof` of a decimal numeral fails exactly when there is no digit before or after the point or its magnitude is out of float range: at least 2^128 − 2^103, or non-zero, below 2^-126 and no multiple of 2^-149; otherwise it is the signed value of digits, fraction and exponent |
| Config.ParseFloat | src/AppConfig.cpp:76 | `std::stof` fails only with `invalid_argument` or `out_of_range` |
| Config.StartsWithDigit | src/AppConfig.cpp:76-87 | text starting with a digit has no leading space, no sign and is neither `inf` nor `nan` |
| Config.DecimalString | src/AppConfig.cpp:77-87 | the decimal numeral of a natural number is a non-empty digit string |
| Config.DecimalStringValue | src/AppConfig.cpp:77-87 | the numeral's digit value is the number |
| Config.DigitRunOfDigits | src/AppConfig.cpp:77-87 | the digit run of a numeral followed by a non-digit is exactly the numeral |
| Config.DigitsValueBound | src/AppConfig.cpp:77-87 | a numeral of n digits is below 10^n |
| Config.ParseIntDigits | src/AppConfig.cpp:77-87 | `stoi` of a numeral that fits `int`, followed by any non-digit text, is the numeral's value |
| Config.ParseIntOfDecimal | src/AppConfig.cpp:77-87 | round trip: `stoi` of the decimal numeral of n is n for every n within `int` |
| Config.ParseFloatDecimal | src/AppConfig.cpp:76 | `stof("a.b")` is a + b / 10^len(b) |
| Config.ParseFloatInteger | src/AppConfig.cpp:76 | `stof` of digits followed by a non-digit reads a hexadecimal numeral after `0x` followed by a hex digit, and otherwise goes on to the fraction part |
| Config.DecimalPoint | src/AppConfig.cpp:76 | digits followed by a point are read as a decimal numeral with a fraction, never as a hexadecimal prefix |
| Config.ParseFloatNumeral | src/AppConfig.cpp:76 | `stof` of a decimal numeral alone is its value, and `out_of_range` exactly when that value is at least 2^128 − 2^103 |
| Config.WholeNumberRange | src/AppConfig.cpp:76 | a whole number is out of float range only by overflowing |
| Config.ParseFloatSpecial | src/AppConfig.cpp:76 | `inf`, `-INF` and `nan`, whatever follows, are infinity, negative infinity and NaN |
| Config.HexNumeral | src/AppConfig.cpp:76 | `0x` followed by a hex digit is read as a hexadecimal numeral |
| Config.ParseFloatHex | src/AppConfig.cpp:76 | `stof("0x1p3")` is 8 |
| Config.ParseFloatUnderflow | src/AppConfig.cpp:76 | `stof("1e-50")` is the `out_of_range` error |
| Config.TinyOutOfRange | src/AppConfig.cpp:76 | the inverse of a number above 2^149 is out of float range |
| Config.DecimalFraction | src/AppConfig.cpp:76 | a zero integer part with a non-zero fraction of at most five digits converts to a positive finite float |
| Config.FractionInRange | src/AppConfig.cpp:76 | a fraction n / d with 0 < n < d ≤ 100000 is within float range and positive |
| Config.FractionNoExponent | src/AppConfig.cpp:76 | a fraction with nothing after it has no exponent |
| Config.FloatValueNoExponent | src/AppConfig.cpp:76 | digits, point and digits with no exponent give the exact decimal value |
| Config.EncodingConfig | src/AppConfig.cpp:10-41 | id 0 gives the Composite/Concatenation encoding of a HashGrid(3 dims, 16 levels, 2 features, log2 size 19, base 16, scale 2.0) and a OneBlob(2 dims, 4 bins); every other id is the error `NNEncodingConfig ID is invalid` |
| Config.SceneConfig | src/AppConfig.cpp:47-62 | id 0 gives strengths 16 and 0, `data/image/photostudio.hdr`, direct 1 and HPM 0; every other id is the error `HpmSceneConfig ID is invalid` |
| Config.ParseUint32 | src/AppConfig.cpp:78-80 | `stoi` stored into a `uint32_t` field succeeds exactly when `stoi` does and lands below 2^32 |
| Config.ReadNetworkFields | src/AppConfig.cpp:76-80 | reading positions 3 to 7 with `argv[index++]` gives the network fields and leaves the index at 8 |
| Config.ReadRenderFields | src/AppConfig.cpp:84-87 | reading positions 9 to 12 with `argv[index++]` gives the render fields and leaves the index at 13 |
| Config.ParseAppConfig | src/AppConfig.cpp:68-88 | any argument count other than 13 is the error `Argument count does not match requirements for AppConfig`; otherwise the fields are read positionally and the first failing conversion or id is the error |
| Config.PositionalFields | src/AppConfig.cpp:72-87 | every field comes from its own position, 1 to 12 in order, the two strings verbatim and each number through its own conversion |
| Config.NegativeIdRejected | src/AppConfig.cpp:77-82 | a negative encoding or scene id wraps to a large unsigned id and is rejected |
| Config.FromArgsAccepts | src/AppConfig.cpp:68-88 | thirteen arguments whose numbers all convert and whose ids are 0 are accepted, with every field taken from its position |
| Config.NumeralOptions | src/AppConfig.cpp:77-87 | every integer option of the NRC sweep is a numeral of at most four digits that `stoi` reads back unchanged |
| Config.DecimalOptions | src/AppConfig.cpp:76-86 | every learning-rate and sample-ratio option of the NRC sweep converts to a positive value |
| Config.BenchConfigsParse | src/AppConfig.cpp:68-88 | every command line the NRC benchmark generates splits into the renderer name and its tuple, and the parser accepts it, reading each field from the option list at the same position |
| Config.TupleParses | src/AppConfig.cpp:72-87 | a tuple drawn from the NRC option lists is accepted with each field read from its own position |
| VulkanApi.FindMemoryType | src/VulkanAPI.cpp:70-78 | the smallest index below the memory-type count whose bit is set in the type filter and whose property flags contain every requested flag; callers must guarantee a match since the source has no return otherwise |
| VulkanApi.MemoryTypeSubRequest | src/VulkanAPI.cpp:75 | a memory type that satisfies a request also satisfies any request for a subset of the properties |
| VulkanApi.FlagsSubset | src/VulkanAPI.cpp:75 | containing every bit of a set implies containing every bit of its subsets |
| VulkanApi.FormatSupportRules | src/VulkanAPI.cpp:80-88 | a tiling other than linear or optimal is never supported; support is kept when fewer features are requested; requesting no feature is supported under both tilings |
| VulkanApi.FindSupportedFormat | src/VulkanAPI.cpp:90-103 | the first supported format in list order, `VK_FORMAT_UNDEFINED` exactly when none is supported |
| VulkanApi.SwapchainImageCount | src/VulkanAPI.cpp:115-118 | min(minImageCount + 1, maxImageCount) in 32-bit arithmetic, where a maximum of 0 means unbounded |
| VulkanApi.SwapchainImageCountWraps | src/VulkanAPI.cpp:117 | a minimum of `UINT32_MAX` wraps the count to zero |
| VulkanApi.FindQueueFamily | src/VulkanAPI.cpp:290-303 | the first queue family with a graphics or compute bit and present support, `UINT32_MAX` exactly when there is none |
| VulkanApi.FindSurfaceFormat | src/VulkanAPI.cpp:325-335 | the first B8G8R8A8_UNORM / SRGB_NONLINEAR surface format, absent exactly when the surface offers none |
| VulkanApi.ChoosePresentMode | src/VulkanAPI.cpp:337-345 | MAILBOX when offered, FIFO otherwise |
| VulkanApi.QueueFamilyOf | src/VulkanAPI.cpp:290-303 | the index of a qualifying queue family, absent exactly when none qualifies |
| VulkanApi.FirstQualifying | src/VulkanAPI.cpp:276-368 | the first device passing the final check, absent exactly when none does |
| VulkanApi.QueueFamilyOfFirst | src/VulkanAPI.cpp:292-302 | the queue family found is the first qualifying one |
| VulkanApi.FirstQualifyingIs | src/VulkanAPI.cpp:276-367 | the device picked is the first that is a discrete GPU with geometry shaders, a qualifying queue family and the BGRA sRGB format |
| VulkanApi.VulkanApi.PickPhysicalDevice | src/VulkanAPI.cpp:274-372 | no qualifying device is the error `Failed to pick physical device`; otherwise the first qualifying device is kept, graphics, present and compute queue family are all its first qualifying family, and its capabilities, format and present mode are stored |
| VulkanApi.VulkanApi.GetComputeQfi | src/VulkanAPI.cpp:140-143 | the compute queue family index answered is the graphics one |
| Buffers.SharingFor | src/Buffer.cpp:90-101 | exclusive sharing exactly when no queue family is given; the index count is the list length |
| Buffers.Written | src/Buffer.cpp:231 | a copy of `size` bytes at `offset` sets exactly those bytes and keeps every other byte |
| Buffers.ReadAfterWrite | src/Buffer.cpp:212-231 | reading back a range just written yields the written bytes |
| Buffers.WriteBackUnchanged | src/Buffer.cpp:212-231 | writing back the bytes a range already holds changes nothing |
| Buffers.Buffer.constructor | src/Buffer.cpp:57-101 | a new buffer is unmapped, its used size is the requested size, and its sharing mode follows the queue-family list |
| Buffers.Buffer.MapMemory | src/Buffer.cpp:174-183 | mapping an already mapped buffer is the error `Vulkan Device Memory is already mapped`; otherwise the buffer becomes mapped and nothing else changes |
| Buffers.Buffer.UnmapMemory | src/Buffer.cpp:185-193 | the buffer always ends unmapped; a warning is issued exactly when it was not mapped |
| Buffers.Buffer.GetUsedSize | src/Buffer.cpp:200-203 | the size the buffer was created with |
| Buffers.Buffer.GetData | src/Buffer.cpp:205-215 | on an unmapped buffer the requested bytes are returned and the buffer ends unmapped; on a mapped one it is the already-mapped error |
| Buffers.Buffer.SetData | src/Buffer.cpp:222-234 | the memory becomes the old memory with `size` bytes of the data at `offset`; the mapped flag never changes |
| Buffers.NewBuffer | src/Buffer.cpp:57-101 | an external memory type other than none, opaque Win32 or opaque FD is the error `vk::Buffer external memory type not supported`; otherwise a fresh unmapped buffer of the requested size |
| Buffers.WriteThenRead | src/Buffer.cpp:205-234 | on an unmapped buffer, `GetData` after `SetData` of the same range yields the data and the buffer stays unmapped |
| CommandPools.CommandPool.constructor | src/CommandPool.cpp:6-16 | a new pool holds no command buffers |
| CommandPools.CommandPool.AllocateBuffers | src/CommandPool.cpp:24-39 | the new buffers are appended in order, the count grows by exactly `bufferCount`, and earlier buffers keep their positions |
| CommandPools.CommandPool.FreeBuffers | src/CommandPool.cpp:41-49 | every buffer is handed back and the list is empty afterwards, also when it already was |
| CommandPools.CommandPool.Destroy | src/CommandPool.cpp:18-22 | the buffers are freed first, so the list is empty and the pool destroyed |
| CommandPools.CommandPool.GetBufferCount | src/CommandPool.cpp:51-54 | the list length as a `uint32_t` |
| CommandPools.CommandPool.GetBuffer | src/CommandPool.cpp:61-64 | an unchecked index: callers must pass an index below the count, and the result is the buffer at that position of the list |
| CommandPools.AllocateThenFree | src/CommandPool.cpp:24-49 | allocating on an empty pool and then freeing hands back exactly the allocated buffers and leaves the count at zero |
| ImageLayouts.Transition | src/Texture2D.cpp:252-265 | only PREINITIALIZED to TRANSFER_DST_OPTIMAL (no access to transfer write) and TRANSFER_DST_OPTIMAL to SHADER_READ_ONLY_OPTIMAL (transfer write to shader read) are accepted; any other pair is the unknown-transition error |
| ImageLayouts.TransitionAdvances | src/Texture2D.cpp:252-265 | every accepted transition moves exactly one stage forward along the upload path |
| ImageLayouts.ApplyAdvances | src/Texture2D.cpp:252-306 | an accepted sequence of requests climbs one stage per request, so at most two requests are ever accepted in a row |
| ImageLayouts.UploadSequence | src/Texture2D.cpp:186-190 | from PREINITIALIZED, two requests succeed exactly when they are TRANSFER_DST_OPTIMAL then SHADER_READ_ONLY_OPTIMAL, ending in SHADER_READ_ONLY_OPTIMAL |
| TexelOffsets.DigitBound | src/Texture2D.cpp:69 | a low digit below n and a high digit below m give a number below n·m |
| TexelOffsets.DigitUnique | src/Texture2D.cpp:69 | the two digits of such a number are determined by it |
| TexelOffsets.DigitSplit | src/Texture2D.cpp:61-69 | every number below n·m has such a pair of digits |
| TexelOffsets.Offset2Digits | src/Texture2D.cpp:69 | `c + 4i + 4Wj` is the mixed-radix number with digits c, i, j |
| TexelOffsets.Offset2Bound | src/Texture2D.cpp:61-69 | every in-range texel channel lands below W·H·4 |
| TexelOffsets.Offset2Injective | src/Texture2D.cpp:69 | distinct texel channels land on distinct bytes |
| TexelOffsets.Offset2Onto | src/Texture2D.cpp:61-69 | every byte below W·H·4 is some texel channel's |
| TexelOffsets.Offset3Digits | src/Texture3D.cpp:96-101 | `c + 4i + 4Wj + 4WHk` is the mixed-radix number with digits c, i, j, k |
| TexelOffsets.Offset3Bound | src/Texture3D.cpp:89-104 | every in-range voxel channel lands below W·H·D·4 |
| TexelOffsets.Offset3Injective | src/Texture3D.cpp:96-101 | distinct voxel channels land on distinct bytes |
| TexelOffsets.Offset3Onto | src/Texture3D.cpp:89-104 | every byte below W·H·D·4 is some voxel channel's |
| TexelOffsets.Offset3Channel | src/Texture3D.cpp:96-101 | the four channels of one voxel are consecutive bytes |
| Textures2D.Linearize | src/Texture2D.cpp:61-73 | the staging array has W·H·4 bytes and channel c of texel (i, j) is at `c + 4i + 4Wj` |
| Textures2D.WriteColumn | src/Texture2D.cpp:64-72 | the middle loop stores every texel of column i and leaves the bytes of every other column as they were |
| Textures2D.WriteTexel | src/Texture2D.cpp:66-71 | the innermost loop stores the four channels of one texel and leaves every other texel's bytes as they were |
| Textures2D.OthersUntouched | src/Texture2D.cpp:69-70 | writing one texel channel never touches another channel's byte |
| Textures2D.EveryByteWrittenOnce | src/Texture2D.cpp:61-73 | every staging byte belongs to exactly one texel channel |
| Textures2D.Texture2D.FromChannels | src/Texture2D.cpp:51-76 | width is `data[0].size()`, height `data[0][0].size()`, both channel counts 4, the staging bytes are the linearised channels, and the texture ends in SHADER_READ_ONLY_OPTIMAL |
| Textures2D.Texture2D.FromImage | src/Texture2D.cpp:30-49 | width, height and source channel count come from the decoded image, the real channel count is 4, and the texture ends in SHADER_READ_ONLY_OPTIMAL |
| Textures2D.Texture2D.ChangeLayout | src/Texture2D.cpp:244-307 | the result is the transition rule applied to the current layout; the layout changes to the request only when the transition is accepted, and nothing else changes |
| Textures2D.Texture2D.LoadToDevice | src/Texture2D.cpp:123-190 | the upload succeeds exactly from PREINITIALIZED and then ends in SHADER_READ_ONLY_OPTIMAL; otherwise it is the unknown-transition error with the layout unchanged |
| Textures2D.Texture2D.GetSizeInBytes | src/Texture2D.cpp:108-111 | W·H·4 in 32-bit arithmetic |
| Textures2D.FromFile | src/Texture2D.cpp:30-49 | an image that fails to decode is the error `Failed to load Texture2D ` followed by the file name; otherwise a texture built from the image |
| Textures3D.ScalarChannels | src/Texture3D.cpp:96-101 | the scalar constructor gives every voxel three colour bytes equal to its value and an alpha byte of 1 |
| Textures3D.OtherVoxelsKept | src/Texture3D.cpp:90-104 | writing one voxel keeps every other voxel already in place |
| Textures3D.EveryByteWrittenOnce | src/Texture3D.cpp:89-104 | every byte of the W·H·D·4 staging array belongs to exactly one voxel channel |
| Textures3D.VoxelInRange | src/Texture3D.cpp:97-101 | the four bytes of an in-range voxel lie inside the staging array |
| Textures3D.LinearizeScalar | src/Texture3D.cpp:89-104 | the staging array has W·H·D·4 bytes and voxel (i, j, k) holds its value three times and then 1 at `4i + 4Wj + 4WHk` |
| Textures3D.WriteScalarColumn | src/Texture3D.cpp:94-102 | the innermost loop stores every voxel of column (i, j) and keeps every voxel of another column that was already in place |
| Textures3D.WriteScalarVoxel | src/Texture3D.cpp:96-101 | one iteration of the innermost loop stores the voxel's four bytes and changes no other byte |
| Textures3D.LinearizeChannels | src/Texture3D.cpp:124-139 | the staging array has W·H·D·4 bytes and channel c of voxel (i, j, k) is at `c + 4i + 4Wj + 4WHk` |
| Textures3D.WriteSlice | src/Texture3D.cpp:127-138 | the loops over j and k store every voxel of slice i and keep the voxels of other slices |
| Textures3D.WriteVoxelChannels | src/Texture3D.cpp:131-136 | the channel loop stores the voxel's four channels and changes no other byte |
| Textures3D.Texture3D.FromScalars | src/Texture3D.cpp:74-107 | width, height and depth are `data.size()`, `data[0].size()` and `data[0][0].size()`; the staging bytes are the linearised scalars; the texture ends in SHADER_READ_ONLY_OPTIMAL |
| Textures3D.Texture3D.FromChannels | src/Texture3D.cpp:109-142 | width, height and depth are the sizes of `data[0]`, `data[0][0]` and `data[0][0][0]`; the staging bytes are the linearised channels; the texture ends in SHADER_READ_ONLY_OPTIMAL |
| Textures3D.Texture3D.ChangeLayout | src/Texture3D.cpp:310-373 | the result is the transition rule applied to the current layout; the layout changes to the request only when accepted, and nothing else changes |
| Textures3D.Texture3D.LoadToDevice | src/Texture3D.cpp:189-256 | the upload succeeds exactly from PREINITIALIZED and then ends in SHADER_READ_ONLY_OPTIMAL; otherwise it is the unknown-transition error with the layout unchanged |
| Textures3D.Texture3D.GetRealSizeInBytes | src/Texture3D.cpp:174-177 | W·H·D·4 in 32-bit arithmetic |
| HdrEnvMaps.RawColorSize | src/HdrEnvMap.cpp:106 | `width * height * 4` in 32-bit arithmetic times four bytes, which is 16·W·H when the product fits |
| HdrEnvMaps.RawCdfXSize | src/HdrEnvMap.cpp:107 | `width * height` in 32-bit arithmetic times four bytes, which is 4·W·H when the product fits |
| HdrEnvMaps.RawCdfYSize | src/HdrEnvMap.cpp:108 | four bytes per row: 4·H |
| HdrEnvMaps.RawSizesRelated | src/HdrEnvMap.cpp:106-108 | the colour size is four times the x-marginal size, which is W times the y-marginal size |
| HdrEnvMaps.ClampStrength | src/HdrEnvMap.cpp:268-276 | a negative strength becomes 0 and any other is kept |
| HdrEnvMaps.ClampIdempotent | src/HdrEnvMap.cpp:268-276 | clamping twice is clamping once |
| HdrEnvMaps.HdrEnvMap.constructor | src/HdrEnvMap.cpp:95-170 | the raw sizes are set from width and height, the colour image ends in SHADER_READ_ONLY_OPTIMAL, and that layout is the one recorded in the descriptor |
| HdrEnvMaps.HdrEnvMap.ChangeColorImageLayout | src/HdrEnvMap.cpp:658-721 | the result is the transition rule applied to the current layout; the layout changes to the request only when accepted, and nothing else changes |
| HdrEnvMaps.HdrEnvMap.CreateColorImage | src/HdrEnvMap.cpp:288-370 | the upload succeeds exactly from PREINITIALIZED and then ends in SHADER_READ_ONLY_OPTIMAL; otherwise it is the unknown-transition error |
| HdrEnvMaps.HdrEnvMap.RenderImGui | src/HdrEnvMap.cpp:261-281 | both strengths are the dragged values clamped at zero, so both are non-negative afterwards; nothing else changes |
| HdrEnvMaps.UploadTwice | src/HdrEnvMap.cpp:366-368 | a second upload of a constructed map is rejected and leaves the layout at SHADER_READ_ONLY_OPTIMAL |
| Materials.DescriptorFor | src/Material.cpp:119-132 | the descriptor binds the dummy texture exactly when the flag is clear, the material's texture when the flag is set and a texture is present, and a null texture when the flag is set without one |
| Materials.Material.constructor | src/Material.cpp:76-149 | the flag is `diffuseTex != nullptr`, the uniform is uploaded once, and the descriptor binds the texture when there is one and the dummy texture otherwise |
| Materials.Material.GetDiffuseColor | src/Material.cpp:157-160 | the stored colour |
| Materials.Material.GetDiffuseTex | src/Material.cpp:168-171 | the stored texture |
| Materials.Material.SetDiffuseColor | src/Material.cpp:162-166 | only the colour changes, the uniform is uploaded once more, and a consistent material stays consistent |
| Materials.Material.SetDiffuseTex | src/Material.cpp:173-214 | the texture is stored and the flag becomes `tex != nullptr`, but the descriptor image is chosen from the flag before the call; the uniform is re-uploaded exactly when the flag changes |
| Materials.Material.SetDiffuseTexIntended | src/Material.cpp:173-214 | with the flag updated before the descriptor write, the texture is bound when present and the dummy otherwise, and a consistent material stays consistent |
| Materials.AddTextureBindsDummy | src/Material.cpp:179-191 | adding a texture to an untextured material leaves the dummy texture bound while the flag says textured |
| Materials.ClearTextureReadsNull | src/Material.cpp:179-183 | clearing the texture of a textured material binds through a null texture |
| Tensors.ElementCount | src/Tensor.cpp:18-20 | the product of the dimensions in `size_t` arithmetic, exact when it fits |
| Tensors.MemorySize | src/Tensor.cpp:21 | four bytes per element in `size_t` arithmetic, exact when it fits |
| Tensors.WrapMul | src/Tensor.cpp:18-21 | reducing the count before multiplying gives the same `size_t` product |
| Tensors.ZeroSizeIffZeroDim | src/Tensor.cpp:18-24 | without overflow the byte size is zero exactly when some dimension is zero |
| Tensors.ProductZeroIff | src/Tensor.cpp:18-20 | the float count is zero exactly when some dimension is zero |
| Tensors.ProductCons | src/Tensor.cpp:18-20 | the element count is the first dimension times the count of the rest |
| Tensors.LinearIndexInRange | src/Tensor.cpp:73-82 | in-range indices address an element below the element count |
| Tensors.LinearIndexInjective | src/Tensor.cpp:73-82 | distinct in-range index tuples address distinct elements |
| Tensors.CountElements | src/Tensor.cpp:18-20 | the constructor's loop computes the `size_t` element count |
| Tensors.Tensor.Filled | src/Tensor.cpp:27-31 | every element of a fresh tensor holds the default value |
| Tensors.Tensor.GetValue | src/Tensor.cpp:59-62 | an unchecked read: callers pass an index below the count and get the element at that index |
| Tensors.Tensor.SetValue | src/Tensor.cpp:91-95 | an index below the count changes that element only, and reading it back gives the value; any other index changes nothing |
| Tensors.Tensor.Add | src/Tensor.cpp:37-47 | different shapes are the error `Tensor addition requires equal shape`; otherwise a fresh tensor of the same shape whose element i is the sum of both element i |
| Tensors.Tensor.GetLinearIndex | src/Tensor.cpp:64-89 | more indices than dimensions is the error `Too many indices for linear index`, fewer is `Cant handle this index input yet`; otherwise the row-major index, each index times the product of the later dimensions |
| Tensors.NewTensor | src/Tensor.cpp:6-35 | an empty shape is the error `Tensor should have at least 1 dimension`; a zero byte size is `Tensor memory size should not be 0`; otherwise a tensor of that shape filled with the default value |
| Tensors.Decrement | src/Tensor.cpp:76 | `i--` on a `size_t`: one less, wrapping at zero |
| Tensors.CounterCountsDown | src/Tensor.cpp:76 | while it has not passed 0, `i--` on a `size_t` counts down by one per step |
| Tensors.LinearIndexLoopNeverExits | src/Tensor.cpp:76 | the loop visits every index of the vector from the last down to 0, and after that the counter wraps to `SIZE_MAX`, where `i >= 0` still holds and the next read is past the end of the vector |
| Vectors.Sum | src/Vector.cpp:22-24 | element i of the sum is the sum of both elements i, and the length is kept |
| Vectors.DotSymmetric | src/Vector.cpp:43-45 | the dot product does not depend on the order of its operands |
| Vectors.DotDistributes | src/Vector.cpp:17-47 | the dot product distributes over `operator+` |
| Vectors.Vector.constructor | src/Vector.cpp:6-15 | a vector of the requested dimension with a host array of that many elements |
| Vectors.Vector.GetDimension | src/Vector.cpp:55-58 | the dimension the vector was created with |
| Vectors.Vector.GetMemorySize | src/Vector.cpp:8 | four bytes per element in `size_t` arithmetic, exact when it fits |
| Vectors.Vector.GetValue | src/Vector.cpp:65-72 | an index at or past the dimension is the error `Index must be lower than vector dimension`; otherwise the element |
| Vectors.Vector.SetValue | src/Vector.cpp:80-87 | an index at or past the dimension is that error and changes nothing; otherwise exactly that element changes |
| Vectors.Vector.Add | src/Vector.cpp:17-27 | different dimensions are the error `Vector addition requires equal dimension`; otherwise a fresh vector holding the element-wise sum, both operands unchanged |
| Vectors.Vector.AddInPlace | src/Vector.cpp:29-36 | different dimensions are that error and change nothing; otherwise every element becomes its sum with the other's, the dimension unchanged |
| Vectors.Vector.DotProduct | src/Vector.cpp:38-48 | different dimensions are the error `Vector dot product requires equal dimension`; otherwise the sum of the products of corresponding elements |
| Datasets.Normalize | src/Dataset.cpp:25-29 | one value per pixel, each the byte scaled into [0, 1] |
| Datasets.OneHot | src/Dataset.cpp:34-41 | a target column of ten values |
| Datasets.TotalOfIndicator | src/Dataset.cpp:34-41 | a column of zeros with possibly a single 1 sums to 1 exactly when that position is inside the column |
| Datasets.OneHotMarksLabel | src/Dataset.cpp:34-41 | a label below 10 has 1 at its own position and 0 elsewhere; a label of 10 or more gives all zeros |
| Datasets.NewDataset | src/Dataset.cpp:49-60 | inputs and targets of different lengths are the error `inputs and targets size not equal`; otherwise both lists are kept as given |
| Datasets.GetSize | src/Dataset.cpp:74-77 | the number of inputs, which in a constructed dataset is also the number of targets |
| Datasets.GetInput | src/Dataset.cpp:79-87 | input `index`, or the error `Requested input is out of bounds` at or past the size |
| Datasets.GetTarget | src/Dataset.cpp:89-97 | target `index`, or the error `Requested target is out of bounds` at or past the target count |
| Datasets.LookupsAgree | src/Dataset.cpp:49-97 | in a constructed dataset an input can be looked up exactly where a target can |
| Datasets.FromMnist | src/Dataset.cpp:6-47 | a label count different from the input count is the error `Mnist inputs and labels size not equal`; an input without 784 pixels is `Mnist inputs needs size of 784`; otherwise entry i pairs the normalised input i with the one-hot target of label i |
| Matrices.RowMajorBound | src/MatmulOp.cpp:52-53 | the row-major index of an in-range element is inside the matrix |
| Matrices.RowMajorInjective | src/MatmulOp.cpp:52-53 | two elements with the same row-major index are the same element |
| Matrices.RowMajorOnto | src/MataddOp.cpp:39-40 | every index inside the matrix is the row-major index of some in-range element |
| Matrices.ToUint32 | src/MatmulOp.cpp:67-71 | a `size_t` count stored in a `uint32_t` push-constant field is below 2^32 and exact when it fits |
| Matrices.ElementwiseWorkgroup | src/SigmoidForwardOp.cpp:26-38 | succeeds exactly for two column vectors of equal length; the column error wins over the size error; the workgroup is one invocation per row |
| MatmulOps.GetConfig | src/MatmulOp.cpp:60-74 | an error exactly when the left column count differs from the right row count; otherwise the four counts, with left columns equal to right rows |
| MatmulOps.GetWorkgroup | src/MatmulOp.cpp:76-79 | one invocation per element of the product: left rows by right columns by 1 |
| MatmulOps.Invocation | src/MatmulOp.cpp:25-54 | an invocation outside the product stores nothing; inside, it stores element (row, col) of the matrix product at its row-major index, which lies inside the result |
| MatmulOps.WorkgroupCoversResult | src/MatmulOp.cpp:28-53 | over the workgroup no two invocations store to the same result element and every result element is stored by one |
| MataddOps.GetConfig | src/MataddOp.cpp:47-62 | an error exactly when the shapes differ; otherwise the shared row and column counts |
| MataddOps.GetWorkgroup | src/MataddOp.cpp:64-67 | one invocation per element: rows by columns by 1 |
| MataddOps.Invocation | src/MataddOp.cpp:23-41 | an invocation outside the matrix stores nothing; inside, it stores the sum of the two operands' elements at its row-major index |
| MataddOps.Sum | src/MataddOp.cpp:39-40 | element k of the result is the sum of both operands' elements k |
| MataddOps.WorkgroupComputesSum | src/MataddOp.cpp:23-41 | every element of the result is stored by exactly one invocation of the workgroup, with the element-wise sum |
| MatSetValueOps.GetConfig | src/MatSetValueOp.cpp:34-42 | the two counts and the value are copied with no check |
| MatSetValueOps.GetWorkgroup | src/MatSetValueOp.cpp:44-47 | one invocation per element: rows by columns by 1 |
| MatSetValueOps.Invocation | src/MatSetValueOp.cpp:21-28 | the value is stored at the row-major index of (row, col) and nothing else changes |
| MatSetValueOps.WorkgroupFillsMatrix | src/MatSetValueOp.cpp:21-28 | over the workgroup every element of the matrix is stored by exactly one invocation |
| MatSetValueOps.NoBoundsCheck | src/MatSetValueOp.cpp:23-27 | with no bounds check, column `colCount` of a row aliases column 0 of the next row |
| MatSetValueOps.DeclaredReadonlyButStored | src/MatSetValueOp.cpp:19-27 | the only buffer is declared `readonly`, yet the shader stores into it, so a GLSL compiler rejects the shader |
| MatSetValueOps.WriteonlyAccepted | src/MatSetValueOp.cpp:19-27 | declared `writeonly`, the buffer admits the store and needs no load |
| LinearLayerForwardOps.GetConfig | src/LinearLayerForwardOp.cpp:74-100 | succeeds exactly when input, output and biases are column vectors and the input rows, weight columns, weight rows, output rows and bias rows agree; then the input and output row counts |
| LinearLayerForwardOps.ChecksInOrder | src/LinearLayerForwardOp.cpp:76-91 | each of the three size errors is reported exactly when all earlier checks passed and its own failed |
| LinearLayerForwardOps.GetWorkgroup | src/LinearLayerForwardOp.cpp:102-105 | one invocation per output row |
| LinearLayerForwardOps.MatmulWeights | src/LinearLayerForwardOp.cpp:24-56 | an index past the output stores nothing; otherwise output `index` becomes the dot product of the weight row read with the given stride and the input, and nothing else changes |
| LinearLayerForwardOps.AddBiases | src/LinearLayerForwardOp.cpp:58-61 | output `index` grows by bias `index` and nothing else changes |
| LinearLayerForwardOps.Invocation | src/LinearLayerForwardOp.cpp:63-68 | as written: output `index` becomes the weight row read with stride `outSize` times the input, plus the bias |
| LinearLayerForwardOps.InvocationIntended | src/LinearLayerForwardOp.cpp:63-68 | with row stride `inSize`: output `index` becomes row `index` of the weight matrix times the input, plus the bias |
| LinearLayerForwardOps.StrideAgreesWhenSquare | src/LinearLayerForwardOp.cpp:33-49 | for a square layer the stride used and the row length coincide, so the shader computes the intended product |
| LinearLayerForwardOps.StrideCounterexample | src/LinearLayerForwardOp.cpp:33-49 | with three inputs and two outputs the shader computes 12 where the weight row times the input is 15 |
| LinearLayerForwardOps.WideningReadsPastWeights | src/LinearLayerForwardOp.cpp:33-49 | for a layer with more outputs than inputs, the last output row read with stride `outSize` ends past the `outSize * inSize` weights |
| LinearLayerForwardOps.WideningExample | src/LinearLayerForwardOp.cpp:73-98 | `GetConfig` accepts a layer of 2 inputs and 3 outputs, whose last row reads past its 6 weights |
| LinearLayerForwardOps.OutputDeclaredWriteonlyButRead | src/LinearLayerForwardOp.cpp:22-61 | the output is declared `writeonly`, yet `AddBiases` loads it, so a GLSL compiler rejects the shader |
| LinearLayerForwardOps.ReadWriteAccepted | src/LinearLayerForwardOp.cpp:22-61 | with no qualifier the output admits both the load and the store |
| LinearLayerBackpropOps.GetConfig | src/LinearLayerBackpropOp.cpp:89-116 | an error exactly when one of old input, previous error or local error is not a column vector; otherwise the input and output sizes and the learning rate |
| LinearLayerBackpropOps.ConfigIgnoresWeightShapes | src/LinearLayerBackpropOp.cpp:106-112 | the weight, bias and delta shapes are never checked and never change the result |
| LinearLayerBackpropOps.GetWorkgroup | src/LinearLayerBackpropOp.cpp:118-121 | one invocation per weight: output rows by input columns by 1 |
| LinearLayerBackpropOps.BlendDelta | src/LinearLayerBackpropOp.cpp:43-44 | with `beta = 0` a finite old delta is replaced by the new one; a NaN or infinite old delta makes the blend NaN |
| LinearLayerBackpropOps.LearnWeights | src/LinearLayerBackpropOp.cpp:36-53 | the delta at the weight's row-major index becomes the blend with `-input * error * learningRate`; a NaN or infinite weight resets the weight and its delta to 0; nothing else changes |
| LinearLayerBackpropOps.Invocation | src/LinearLayerBackpropOp.cpp:69-83 | the biases never change; a NaN or infinite weight resets the weight and its delta to 0; otherwise the weights stay and the delta becomes `-input * error * learningRate`, or NaN when it was not finite; no other delta changes |
| ReluForwardOps.GetWorkgroup | src/ReluForwardOp.cpp:41-53 | succeeds exactly for two column vectors of equal length, reporting the column error first; one invocation per row |
| ReluForwardOps.Activate | src/ReluForwardOp.cpp:17-35 | the symbolic `log(1 + exp(x))` exactly at 20; elsewhere 0 or the input itself |
| ReluForwardOps.Relu | src/ReluForwardOp.cpp:22-29 | the rectifier the op is named after: at least 0 and at least the input |
| ReluForwardOps.AgreesWithReluIff | src/ReluForwardOp.cpp:22-33 | the shader equals the rectifier exactly for inputs not above 0 or above 20 |
| ReluForwardOps.ActivateMonotone | src/ReluForwardOp.cpp:22-29 | away from 20 the stored value never decreases as the input grows |
| ReluForwardOps.Invocation | src/ReluForwardOp.cpp:15-36 | invocation `index` stores the activation of input `index` at output `index` and nothing else |
| ReluBackpropOps.GetWorkgroup | src/ReluBackpropOp.cpp:36-55 | succeeds exactly for three column vectors of equal length; the column error is reported before the size error; one invocation per row |
| ReluBackpropOps.ReluDeriv | src/ReluBackpropOp.cpp:26 | in (0, 1], and 1 exactly for a positive input |
| ReluBackpropOps.DerivIsLeakyReluSlope | src/ReluBackpropOp.cpp:26 | the derivative used is the slope of the leaky rectifier on the input's side of 0 |
| ReluBackpropOps.DerivDisagreesWithForward | src/ReluBackpropOp.cpp:26-28 | below 20 the forward shader is constant while the derivative used is positive |
| ReluBackpropOps.Invocation | src/ReluBackpropOp.cpp:19-30 | invocation `index` stores the previous error for a positive input and 0.01 times it otherwise, and nothing else changes |
| SigmoidForwardOps.GetWorkgroup | src/SigmoidForwardOp.cpp:26-38 | succeeds exactly for two column vectors of equal length; one invocation per row |
| SigmoidForwardOps.ColumnCheckFirst | src/SigmoidForwardOp.cpp:28-34 | the column error wins over the size error, which is reported exactly for column vectors of different lengths |
| SimpleModelRenderers.FindDepthFormat | src/SimpleModelRenderer.cpp:132-146 | an error exactly when none of the three depth candidates supports depth-stencil attachment with optimal tiling; otherwise the first candidate, in the listed order, that does |
| SimpleModelRenderers.MeshDraws | src/SimpleModelRenderer.cpp:623-640 | one indexed draw per mesh of the instance's model, in mesh order, with that mesh's index count |
| SimpleModelRenderers.DrawsAppend | src/SimpleModelRenderer.cpp:620-641 | the draws of two instance lists one after the other are the draws of their concatenation |
| SimpleModelRenderers.DrawCount | src/SimpleModelRenderer.cpp:620-641 | the number of recorded draws is the total mesh count of the instances' models |
| SimpleModelRenderers.Without | src/SimpleModelRenderer.cpp:109-120 | the intended removal: the instance does not occur in the result, and every other instance does exactly when it did before |
| SimpleModelRenderers.EraseKeepsOthers | src/SimpleModelRenderer.cpp:111-115 | the as-written erase loop keeps every other instance in its order; only copies of the removed one may survive |
| SimpleModelRenderers.EraseCorrectWithoutAdjacentMatches | src/SimpleModelRenderer.cpp:111-115 | when no two copies of the instance are adjacent, the as-written loop removes every copy |
| SimpleModelRenderers.AdjacentMatchSurvives | src/SimpleModelRenderer.cpp:111-115 | with two adjacent copies the loop skips the second after erasing the first, so one copy remains |
| SimpleModelRenderers.EraseStep | src/SimpleModelRenderer.cpp:111-115 | one iteration of the erase loop: a kept element joins the checked prefix; an erased one shifts the next element under the advancing index |
| SimpleModelRenderers.SimpleModelRenderer.constructor | src/SimpleModelRenderer.cpp:7-27 | stores the frame size and depth format, starts with no instances, and keeps exactly one allocated command buffer in its pool |
| SimpleModelRenderers.SimpleModelRenderer.CreateCommandBuffer | src/SimpleModelRenderer.cpp:560-564 | allocates one primary buffer from an empty pool and uses it; nothing else changes |
| SimpleModelRenderers.SimpleModelRenderer.RecordCommandBuffer | src/SimpleModelRenderer.cpp:566-651 | the recorded draws are one per mesh, instance by instance in list order; nothing else changes |
| SimpleModelRenderers.SimpleModelRenderer.ResizeFrame | src/SimpleModelRenderer.cpp:73-98 | stores the new size, frees the old command buffer and records the same instances into a new one |
| SimpleModelRenderers.SimpleModelRenderer.AddModelInstance | src/SimpleModelRenderer.cpp:100-107 | appends the instance and re-records: the old draws followed by one draw per mesh of the new instance |
| SimpleModelRenderers.SimpleModelRenderer.EraseMatchesAsWritten | src/SimpleModelRenderer.cpp:111-115 | the instance list becomes the as-written erase of the instance, and nothing else changes |
| SimpleModelRenderers.SimpleModelRenderer.RemoveModelInstance | src/SimpleModelRenderer.cpp:109-120 | as written: the erase loop's result, then a new command buffer recording those instances |
| SimpleModelRenderers.SimpleModelRenderer.RemoveModelInstanceIntended | src/SimpleModelRenderer.cpp:109-120 | every copy of the instance is removed, the rest keep their order, and the command buffer is re-recorded |
| SimpleModelRenderers.NewRenderer | src/SimpleModelRenderer.cpp:7-27 | fails exactly when no depth candidate is supported; otherwise a fresh renderer with no instances and a supported depth format |
| NrcHpmRenderers.BufferSizesFollowNetwork | src/NrcHpmRenderer.cpp:370-380 | weight buffer k holds a 4-byte float per connection between layer widths k and k + 1 of the 5-64-64-64-4 network; bias buffer k + 4 one per unit of width k + 1 |
| NrcHpmRenderers.DescriptorWrites | src/NrcHpmRenderer.cpp:392-415 | one write per buffer: write i targets binding i with buffer i, from offset 0 over its whole size |
| NrcHpmRenderers.UploadTargetsMatchLayout | src/NrcHpmRenderer.cpp:36-100 | the buffer each binding refers to is the one the upload fills with the role the layout declares at that binding (weights 0-3, then biases 0-3) |
| NrcHpmRenderers.Linears | src/NrcHpmRenderer.cpp:265-270 | the layers that are linear, in order |
| NrcHpmRenderers.LinearsAppend | src/NrcHpmRenderer.cpp:265-270 | picking the linear layers of two lists one after the other equals picking them from the concatenation |
| NrcHpmRenderers.FirstSlots | src/NrcHpmRenderer.cpp:265 | the first four linear layers, or all of them when there are fewer |
| NrcHpmRenderers.CopySize | src/NrcHpmRenderer.cpp:273-274 | the bytes copied: the element count as written, or the byte count, never more than the vector has |
| NrcHpmRenderers.UploadLinearLayers | src/NrcHpmRenderer.cpp:264-278 | after the loop, linear layer k's weights are written at the start of buffer k and its biases at the start of buffer k + 4, for the first four linear layers; other buffers are untouched |
| NrcHpmRenderers.LoopExit | src/NrcHpmRenderer.cpp:265 | the loop stops at the end of the layers or after four linear layers, having visited exactly the first four linear layers |
| NrcHpmRenderers.VisitLayer | src/NrcHpmRenderer.cpp:266-277 | one loop iteration keeps the upload invariant: a linear layer is uploaded into the next slot, any other layer is skipped |
| NrcHpmRenderers.LinearsPrefix | src/NrcHpmRenderer.cpp:265-270 | the linear layers of a prefix of the layers are a prefix of all the linear layers |
| NrcHpmRenderers.UploadSlots | src/NrcHpmRenderer.cpp:271-276 | the weights go into buffer k and the biases into buffer k + 4, and the other slots stay as they were |
| NrcHpmRenderers.QuarterWritten | src/NrcHpmRenderer.cpp:273-274 | as written, only the first quarter of a float vector's bytes reach the buffer; the rest of its range keeps its old bytes |
| NrcHpmRenderers.QuarterWrittenExample | src/NrcHpmRenderer.cpp:273-274 | two floats of ones uploaded into a zeroed 8-byte buffer leave six bytes zero |
| NrcHpmRenderers.WholeWritten | src/NrcHpmRenderer.cpp:273-274 | with the byte count, the whole vector arrives |
| NrcHpmRenderers.UploadedWhole | src/NrcHpmRenderer.cpp:264-278 | after an upload with byte counts every buffer of a present linear layer starts with that layer's weights or biases in full |
| NrcHpmRenderers.NrcHpmRenderer.constructor | src/NrcHpmRenderer.cpp:145-180 | stores the frame size, creates eight distinct buffers of the listed sizes, their descriptor writes over each whole buffer, and one command buffer |
| NrcHpmRenderers.NrcHpmRenderer.ResizeFrame | src/NrcHpmRenderer.cpp:229-257 | stores the new size and replaces the command buffer with a freshly allocated one |
| NrcHpmRenderers.NrcHpmRenderer.GetImageDataSize | src/NrcHpmRenderer.cpp:291-295 | four bytes per pixel in 32-bit arithmetic: below 2^32, and exact when it fits |
| NrcHpmRenderers.NrcHpmRenderer.UpdateNnData | src/NrcHpmRenderer.cpp:259-279 | as written: the first four linear layers are uploaded slot by slot with the element count as the byte count |
| NrcHpmRenderers.NrcHpmRenderer.UpdateNnDataIntended | src/NrcHpmRenderer.cpp:259-279 | with the byte count: the first four linear layers are uploaded whole, slot by slot |
| NrcHpmRenderers.ImageDataSizeWraps | src/NrcHpmRenderer.cpp:291-295 | a 32768 x 32768 frame wraps the 32-bit image data size to 0 |
| Models.FindLast | src/Model.cpp:15 | `find_last_of` with one character: present exactly when the character occurs, and then the position of an occurrence with none after it |
| Models.Directory | src/Model.cpp:15 | the path up to, not including, its last '/'; the whole path when it has none |
| Models.LastOccurrenceUnique | src/Model.cpp:15 | only one position holds the character with none after it, so the directory is well defined |
| Models.ModelDirectory | src/Model.cpp:6-15 | under `data/model/` the directory is the root plus the file's own directory, or `data/model` for a bare file name |
| Models.OwnMeshes | src/Model.cpp:92-98 | one reference per mesh of the node, in order, each carrying the node's transform chain |
| Models.PreOrderUsable | src/Model.cpp:82-104 | every mesh the walk reaches is one the loader can build, and carries its ancestors' transforms first |
| Models.ChildrenPreOrderUsable | src/Model.cpp:100-103 | the same for the walk over a node's children |
| Models.IndexCountAppend | src/Model.cpp:145-150 | the index count of two face lists one after the other is the sum of their counts |
| Models.FlattenLength | src/Model.cpp:145-150 | the flattened index list has one entry per face index |
| Models.FlattenAt | src/Model.cpp:145-150 | index j of face f sits in the flattened list right after the indices of the faces before f |
| Models.ProcessAll | src/Model.cpp:94-103 | one mesh per reference, in order |
| Models.ProcessAllAppend | src/Model.cpp:94-103 | building the meshes of two reference lists one after the other equals building them for the concatenation |
| Models.ChildStep | src/Model.cpp:102-103 | one pass of the children loop extends the meshes by the next child's subtree walk |
| Models.NodeStep | src/Model.cpp:94-103 | the node's own meshes followed by its children's walks are the node's pre-order walk |
| Models.SharedTexture | src/Model.cpp:186-200 | two materials naming the same texture path share one texture |
| Models.MaterialsStep | src/Model.cpp:162-204 | one pass of the material loop keeps the earlier materials loaded as they were while the cache grows |
| Models.KeysStep | src/Model.cpp:186-200 | one pass of the material loop adds the material's texture path, if any, to the cache keys |
| Models.Model.TexturesCreatedOnce | src/Model.cpp:191-195 | no texture path is created twice |
| Models.Model.constructor | src/Model.cpp:10-15 | the file path under `data/model/`, its directory, and no meshes, materials or textures yet |
| Models.Model.GetMeshCount | src/Model.cpp:57-60 | the mesh count as a `uint32_t`: below 2^32, exact when it fits |
| Models.Model.LoadMaterials | src/Model.cpp:155-205 | the error `Failed to load Texture2D ` plus the path exactly when some material's new texture path does not decode, naming the first such material; otherwise one material per scene material, in order (none without materials): its diffuse colour or white, and its first diffuse texture loaded once per path under the model's directory; earlier materials and cache entries are kept and the cache gains exactly the new paths |
| Models.FailsAgainstCache | src/Model.cpp:186-200 | while no earlier material failed, a material's texture fails against the grown cache exactly when it fails against the starting one |
| Models.NoFailureStep | src/Model.cpp:162-204 | a material that loads extends the run of materials without a texture failure |
| Models.NoneFails | src/Model.cpp:162-204 | when no material fails, no texture fails to load |
| Models.Model.LoadMaterial | src/Model.cpp:166-203 | a new texture path that does not decode is the error `Failed to load Texture2D ` plus the path and changes nothing; otherwise one material for the scene material: the cached texture for a known path, a new one for a new path, none without a texture; the cache gains at most that path |
| Models.Model.ProcessMesh | src/Model.cpp:106-153 | one vertex per scene vertex, each missing attribute read as zero, the faces' indices flattened in order, and the mesh's own material |
| Models.Model.ProcessNodeMeshes | src/Model.cpp:94-98 | appends the built meshes of the node's own mesh references, in order |
| Models.Model.ProcessNode | src/Model.cpp:82-104 | appends the meshes of the subtree in pre-order: the node's own, then each child's subtree left to right |
| Models.Model.ProcessChildren | src/Model.cpp:102-103 | appends each child's subtree walk, left to right |
| Models.LoadModel | src/Model.cpp:10-33 | a missing or incomplete import or one without a root node is the error `Assimp Error - ` plus the importer's message; a texture that does not decode is the texture error of the first such material; otherwise the materials are loaded first, then the meshes of the whole scene graph in pre-order |
| Inputs.IsKeyPressed | src/Input.cpp:27-31 | a key counts as held when pressed or repeating |
| Inputs.IsMouseButtonPressed | src/Input.cpp:33-37 | a mouse button counts as held only when pressed |
| Inputs.MovesTelescope | src/Input.cpp:16-25 | the movements reported over successive updates add up to the distance from the start to the last cursor position |
| Inputs.AxisAntisymmetric | src/Input.cpp:74-85 | swapping an axis's two keys reverses its displacement |
| Inputs.AxisZero | src/Input.cpp:74-85 | an axis does not move exactly when both or neither of its keys are held, or the speed is zero |
| Inputs.Speed | src/Input.cpp:67-88 | 20 units per second times the frame time, ten times that with left shift |
| Inputs.MovementNonZero | src/Input.cpp:67-94 | the camera moves exactly when the frame time is non-zero and some axis has exactly one key held |
| Inputs.Input.constructor | src/Input.cpp:7-8 | the cursor position and movement start at zero |
| Inputs.Input.Update | src/Input.cpp:16-25 | the movement is the offset from the previous position to the new one, which is then remembered |
| Inputs.Input.HandleUserCamInput | src/Input.cpp:49-97 | the cursor is hidden exactly while the right button is held; then the camera rotates by the scaled, negated mouse movement; it moves by the key-pair vector exactly when that is non-zero; the changed flag is set exactly when a non-zero rotation or a move happened |
| NeuralRadianceCaches.WeightsBufferSize | src/NeuralRadianceCache.cpp:67-72 | the weight buffer size computed in `size_t` arithmetic, below 2^64 |
| NeuralRadianceCaches.WeightsBufferSizeExact | src/NeuralRadianceCache.cpp:67-72 | with at least one layer and no overflow the size is 4 bytes per weight of the formula |
| NeuralRadianceCaches.BiasesBufferSize | src/NeuralRadianceCache.cpp:73-74 | the bias buffer size, 4 bytes per hidden unit plus 3 outputs, exact when it fits in `size_t` |
| NeuralRadianceCaches.HiddenCounts | src/NeuralRadianceCache.cpp:67-74 | the connections and units of a chain of equal hidden layers |
| NeuralRadianceCaches.SizesMatchNetwork | src/NeuralRadianceCache.cpp:67-74 | with at least one layer the formulas count exactly the weights and biases of the network input, hidden layers, 3 outputs |
| NeuralRadianceCaches.ZeroLayersWrap | src/NeuralRadianceCache.cpp:67-72 | with no layer `layerCount - 1` wraps around and the weight size disagrees with the network (16 bytes where 24 are needed) |
| NeuralRadianceCaches.NeuralRadianceCache.constructor | src/NeuralRadianceCache.cpp:6-20 | the chosen encodings and network shape, zeroed uniform data and no buffers |
| NeuralRadianceCaches.NeuralRadianceCache.SetPosFrequencyEncoding | src/NeuralRadianceCache.cpp:22-25 | sets the position frequency count and changes nothing else |
| NeuralRadianceCaches.NeuralRadianceCache.SetPosMrheEncoding | src/NeuralRadianceCache.cpp:27-33 | sets the hash-encoding frequency range, level count and feature count and changes nothing else |
| NeuralRadianceCaches.NeuralRadianceCache.SetDirFrequencyEncoding | src/NeuralRadianceCache.cpp:35-38 | sets the direction frequency count and changes nothing else |
| NeuralRadianceCaches.NeuralRadianceCache.SetDirOneBlobEncoding | src/NeuralRadianceCache.cpp:40-43 | sets the direction feature count and changes nothing else |
| NeuralRadianceCaches.NeuralRadianceCache.Init | src/NeuralRadianceCache.cpp:45-53 | the network buffers are created and filled, and the hash-encoding step runs only for that encoding |
| NeuralRadianceCaches.NeuralRadianceCache.InitNn | src/NeuralRadianceCache.cpp:65-78 | creates the six buffers with the computed sizes and fills them: weights from the normal draws, deltas and momenta zero |
| NeuralRadianceCaches.NeuralRadianceCache.CreateNnBuffers | src/NeuralRadianceCache.cpp:80-117 | six device buffers, three of the weight size and three of the bias size, none filled yet |
| NeuralRadianceCaches.NeuralRadianceCache.FillNnBuffers | src/NeuralRadianceCache.cpp:119-146 | the weights hold one draw per float of the weight buffer, the weight deltas and momenta that many zeros; the bias buffers keep their size and stay unfilled |
| NeuralRadianceCaches.NeuralRadianceCache.InitMrhe | src/NeuralRadianceCache.cpp:148-151 | changes nothing |
| NeuralRadianceCaches.InitialisedNetwork | src/NeuralRadianceCache.cpp:65-146 | after `Init`, with at least one layer and no overflow, there is one draw per network weight, zero deltas and momenta of the same length, and the bias buffer has 4 bytes per bias |

## Left out

- Vulkan object plumbing is not modelled. This covers render passes, pipelines, descriptor pools and sets, image, memory and view creation, samplers, queue submission and the destruction calls. Only the host-side logic around them is kept.
- Process and file I/O is not modelled: `update_files`, `update_file_hierarchy`, `os.system`, `time.time`, the empty `evaluate_results`, stb, tinyexr, openvdb and assimp loading, shader compilation, `Log`, `LogFile` and `Window`. Files the scripts write and read are strings of Unicode characters in a modelled directory. Importer output is a parameter, and so is `decodable`, the set of texture paths the image loader can decode.
- The timing and `print` reports of the sweep executors are not modelled.
- On Windows, writing a text file turns each `\n` into `\r\n`, and reading it with universal newlines turns that back into `\n`. The model writes `\n` and models only the reading side.
- Config.ParseFloat returns the exact decimal or binary value of the numeral, not the nearest float. Its `out_of_range` bounds are exact: overflow from 2^128 − 2^103, and underflow for a non-zero magnitude below 2^-126 that is no multiple of 2^-149. glibc detects tininess after rounding, so a magnitude just below 2^-126 that rounds up to it is accepted there but out of range here.
- Config.ParseFloat gives NaN no sign and no payload: `-nan` and `nan(…)` are plain NaN.
- Floats are modelled as exact reals. Rounding, `exp`, `log`, the sigmoid value `1 / (1 + exp(-x))`, the `/ 255` of MNIST normalisation as a float division, and float-to-byte texel conversion are not modelled.
- `ReluForwardOps.Activate` keeps `log(1 + exp(20))` symbolic.
- `LinearLayerBackpropOps.IsNaNOrInf` is true only for NaN and infinities. The shader's `isInf(x)` macro, `x == x + 1.`, also holds for finite floats of magnitude at least 2^24, where adding 1 rounds away. Finite weights are reals here, so the model does not capture that.
- The `atomicAdd` local-error accumulation of the backward linear-layer shader is not modelled, because it is concurrent. Shader invocations are modelled one at a time, each independent of the others.
- The random weight initialisation of the neural radiance cache (a normal distribution) is a parameter `draw` giving the value for each index.
- `McHpmRenderer`'s random numbers are not part of this model.
- GLFW polling and ImGui widgets become inputs: key states, the mouse-button state, the cursor position and the edited panel values.
- The camera calls of `Inputs.Input.HandleUserCamInput` are returned as a record. The camera itself is not modelled.
- `NeuralNetwork`, `ReluLayer`, `Layer`, `LinearLayer`, `KomputeManager` sequences and `Matmul::Execute` are not part of this model, because they are Kompute-based or stubs. So are the empty `SigmoidBackpropOp` shader, `openexr_helper.cpp`, `AccelerationStructure.cpp` and `VolumeData.cpp`.
- `IsColVector` is not declared by `include/engine/compute/Matrix.hpp`, whose `Matrix` has only row and column counts. It is modelled as "exactly one column", the test the forward ops make explicitly.
- `Tensors.NewTensor`: the source creates the device buffer from `m_MemorySize` before computing it, which is undefined behaviour. The model computes the size first and does not model the device buffer.
- `Vectors.Vector.constructor`: the source never allocates `m_HostMemory`, so every element access is undefined behaviour. The model allocates the host array so that the element operations can be stated.
- `NeuralRadianceCaches.NeuralRadianceCache.constructor`: the source never sets `m_InputFeatureCount`. The model leaves `inputFeatureCount` unconstrained, and every size lemma holds for any value of it.
- `NeuralRadianceCaches.NeuralRadianceCache.GetInputFeatureCount` and `Destroy` are not modelled. The getter returns that unset field, and `Destroy` is empty.
- `NeuralRadianceCaches.NeuralRadianceCache.InitMrhe` is modelled as the empty body it has.
- Where a header disagrees with its `.cpp`, the `.cpp` is modelled. One example: the header's `PosEncoding` names a `Direct_Frequency_Mrhe` value where the `.cpp` uses `Mrhe`.
- `Tensors.Tensor.GetLinearIndex` computes the index in unbounded integers, without the `size_t` wrap of the products.
- `Tensors.Tensor.GetValue` and `CommandPools.CommandPool.GetBuffer` require an index in range, because the source does not check it.
- LinearLayerForwardOps.Invocation requires every weight it reads with stride `outSize` to lie inside the weights. For a layer with more outputs than inputs, which `GetConfig` accepts, the source reads past the `outSize * inSize` weights instead, which is undefined behaviour. `WideningReadsPastWeights` and `WideningExample` exhibit those inputs; the model does not say what such reads return.
- Textures2D.Texture2D.FromChannels requires four non-empty planes of equal shape whose byte size fits 32 bits. The source checks neither the shape (a ragged plane) nor the size, and either case writes outside the staging array, which is undefined behaviour.
- Textures3D.Texture3D.FromScalars and Textures3D.Texture3D.FromChannels require non-empty grids of one shape whose byte size fits 32 bits, for the same reason: the source does not check them, and a ragged grid or a wrapped size writes outside the staging array.
- `VulkanApi.FindMemoryType` requires that a matching type exists, because the source has no return statement otherwise.
- `Models.Model.ProcessMesh` keeps a node's transforms as a chain, root first, instead of multiplying the matrices. It does not apply the transform or the normal matrix to positions and normals.
- `flipUv` is an importer flag and has no effect in the model.
- `Models.LoadModel` requires every mesh reference of the scene graph to name a scene mesh with a valid material index, because the source indexes those arrays without checks.
- `Model::Destroy`, `GetMesh`, `GetMaterial`, `SetMeshMaterial` and `ModelInstance` are not modelled. They are getters, Vulkan teardown or descriptor plumbing.
- `SimpleModelRenderers.SimpleModelRenderer.RecordCommandBuffer` records only the indexed draws. The begin and end calls, descriptor binds and vertex/index buffer binds are Vulkan plumbing.
- `NrcHpmRenderers.NrcHpmRenderer.constructor` zero-fills the eight network buffers, whose initial bytes the source leaves unspecified.
- `NrcHpmRenderer::RecordCommandBuffer`, `Render`, the low-pass image and the pipeline are not modelled.
- `SimpleModelRenderer::Render`, `Destroy`, `SetImGuiCommandBuffer` and the image getters are not modelled. They submit to a queue, tear down Vulkan objects or return handles.
- `Inputs.Input.HandleUserCamInput` does not model float underflow of `20 * deltaTime`.

## Findings

| source | as written | input that shows it | evidently intended | confidence | as-written member | corrected member |
|---|---|---|---|---|---|---|
| WinBench/win_bench.py:74-100 | the generator writes `configs.txt` but the executor reads `configs.csv` | a fresh directory: generate, then execute | the executor reads the file the generator wrote | high, not executed | WinBench.RoundTripBroken | WinBench.GenerateThenExecuteGenerated |
| src/Material.cpp:173-214 | `SetDiffuseTex` picks the descriptor image from the texture flag before updating it | an untextured material given a texture (the dummy stays bound), or a textured one given `nullptr` (a null texture is dereferenced) | update the flag first, then bind the texture when present and the dummy otherwise | high, not executed | Materials.AddTextureBindsDummy | Materials.Material.SetDiffuseTexIntended |
| src/Tensor.cpp:73-82 | `GetLinearIndex` counts a `size_t` down with `i >= 0` as the loop condition, which always holds | any call with as many indices as dimensions: after `i = 0` the index wraps to `SIZE_MAX` and reads past the vector | stop after `i = 0`: the row-major index of the tuple | high, not executed | Tensors.LinearIndexLoopNeverExits | Tensors.Tensor.GetLinearIndex |
| src/LinearLayerForwardOp.cpp:33-49 | the weight row stride is `outSize` | 3 inputs, 2 outputs, weights `[[1, 2, 3], [4, 5, 6]]`, input `[1, 1, 1]`: output 1 is 12 instead of 15 | stride `inSize`, the length of a weight row | medium, not executed | LinearLayerForwardOps.StrideCounterexample | LinearLayerForwardOps.InvocationIntended |
| src/LinearLayerForwardOp.cpp:33-49 | with stride `outSize`, a layer with more outputs than inputs reads past its weights | 2 inputs, 3 outputs, accepted by `GetConfig`: output 2 reads floats 6 and 7 of a 6-float weight buffer | stride `inSize`, which keeps every read inside the `outSize * inSize` weights | high, not executed | LinearLayerForwardOps.WideningReadsPastWeights | LinearLayerForwardOps.InvocationIntended |
| src/LinearLayerForwardOp.cpp:22-61 | the output buffer is declared `writeonly`, yet `AddBiases` loads it with `+=` | any compilation of the shader | no qualifier on the output buffer | medium, not executed | LinearLayerForwardOps.OutputDeclaredWriteonlyButRead | LinearLayerForwardOps.ReadWriteAccepted |
| src/MatSetValueOp.cpp:19-27 | the only buffer is declared `readonly`, yet the shader stores into it | any compilation of the shader | declare the buffer `writeonly` | medium, not executed | MatSetValueOps.DeclaredReadonlyButStored | MatSetValueOps.WriteonlyAccepted |
| src/SimpleModelRenderer.cpp:111-115 | `RemoveModelInstance` erases at `i` and still increments `i`, skipping the element that moved into position `i` | instances `[x, x]`, remove `x`: `[x]` remains | remove every occurrence | high, not executed | SimpleModelRenderers.AdjacentMatchSurvives | SimpleModelRenderers.SimpleModelRenderer.RemoveModelInstanceIntended |
| src/NrcHpmRenderer.cpp:273-274 | `UpdateNnData` passes the element count `size()` where `SetData` takes a byte count | two floats of ones into a zeroed 8-byte buffer: only 2 bytes are written | pass `sizeof(float) * size()` | high, not executed | NrcHpmRenderers.QuarterWrittenExample | NrcHpmRenderers.NrcHpmRenderer.UpdateNnDataIntended |
