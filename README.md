# Page store, sound layer and update-block marking of the id engine port

This project models three pieces of the game engine's low-level support code and proves what each promises.

- **Page manager** (`id_pm.c`). The page file (VSWAP) is read into one buffer. That buffer is the file plus one page of zeros. The first three little-endian words of the buffer are the chunk count, the first sprite page and the first sound page. A table of 32-bit chunk offsets follows at byte 6. `PM_GetPage` turns a page number into a position inside the buffer, and it has two error cases: a page number that is not below the chunk count, and a sparse chunk (offset 0). The sound-page and sprite-page lookups are biased by the first sound page and the first sprite page. `PM_Shutdown` closes the file and resets everything, and `PM_Startup` shuts down before it opens. The page manager's globals are the fields of the class `PageStore`.
- **Sound manager** (`id_sd.cpp`). This is the layer that routes requests to the audio mixer. The mixer itself is an external collaborator. Every call into it is appended to a ghost `trace` as a `MixerCall` value. Properties are then stated as "exactly this call with these arguments, or no call". The module covers:
  - sound and music enabling;
  - starting music;
  - `SDL_SetupDigi`, which counts and copies the digitized-sound table out of the last chunk of the page file;
  - `SD_Startup`/`SD_Shutdown`, including the guard on `SD_Started`;
  - `sd_play_sound` with its PCM/AdLib dispatch and its four wrappers;
  - the integer volume clamp.

  The routing of a play request is specified by the pure function `PlayCalls`. The imperative `SoundSystem.PlaySound` is proved to append exactly those calls.
- **Video buffer code** (`id_vh.c`). `VW_MarkUpdateBlock` is the imperative method `VideoState.MarkUpdateBlock`. It turns a pixel rectangle into 16-pixel tiles, clips it to the `UPDATEWIDE` x `UPDATEHIGH` update grid, and walks a pointer over the grid to set the covered cells to 1. It is proved against the pure `MarkResult`, and the lemmas state what `MarkResult` means:
  - exactly the tiles under the unclipped rectangle are set;
  - marking twice is marking once;
  - cells only become 1;
  - for a rectangle whose corners are in order, the result is 0 exactly when the rectangle misses the grid, with one edge row as the exception. A rectangle whose corners are out of order can be kept yet cover no tile.

  The `VWB_*` wrappers and `LatchDrawPic` mark the rectangles they compute, in 16-bit arithmetic. `VWL_MeasureString` sums character widths in a 16-bit accumulator. The column loop of `VW_DrawPropString` is proved to draw column `k` with mask `1 << ((px0 + k) & 3)` into byte `(px0 + k) >> 2`.

Modules:
- `Base`: bytes, 16/32-bit integers, C wrap-around, little-endian words, `Option`/`Result`/`Outcome`.
- `PageManager`.
- `SoundManager`, which imports `PageManager` for page lookups.
- `VideoHigh`.

The shift `x >> 4` of a negative `Sint16` rounds toward minus infinity, and so does Dafny's `x / 16`. The model uses this to write the tile conversion as a division.

Constants not defined in the files modelled:
- `PMPageSize` is 4096; `id_pm.h` is not part of this model.
- `UPDATEWIDE`/`UPDATEHIGH` (the fields `wide`/`high`) are parameters.
- So are `sd_min_volume`/`sd_max_volume`, the player's slot, the audio tables and the font and picture tables.
- The sound header `SoundCommon` is taken to be a 32-bit length followed by a 16-bit priority, so the priority is the little-endian word at byte 4. The structure is not part of this model.

## Model

| member | source | states |
|---|---|---|
| `PageManager.PadBuffer` | id_pm.c:29-30 | the buffer is the file followed by PMPageSize bytes, all zero |
| `PageManager.GetPage` | id_pm.c:66-79 | BAD_PAGE exactly when the page number is not below ChunksInFile; SPARSE_PAGE exactly when the chunk's offset is 0; otherwise the page is at the chunk's offset in the buffer |
| `PageManager.GetSoundPage` | id_pm.c:81-84 | sound page n is page PMSoundStart + n |
| `PageManager.GetSpritePage` | id_pm.c:86-89 | sprite page n is page PMSpriteStart + n |
| `PageManager.ShutDownRejectsEveryPage` | id_pm.c:49-64 | the shut-down state is consistent and every page lookup in it fails with BAD_PAGE |
| `PageManager.PageFileRoundTrip` | id_pm.c:35-39 | opening a page file written with a header and offset table reads back the chunk count, sprite start and sound start, and every lookup gives the written offset, BAD_PAGE past the count, or SPARSE_PAGE for offset 0 |
| `PageManager.PageStore.constructor` | id_pm.c:9-15 | the initial state has no file (-1), no buffer and zero counters |
| `PageManager.PageStore.Shutdown` | id_pm.c:49-64 | closes the open handle, if any, and only that; resets the three counters to 0, the handle to -1 and both pointers to none; afterwards every lookup fails with BAD_PAGE |
| `PageManager.PageStore.OpenPageFile` | id_pm.c:18-40 | a file that does not open gives OPENPAGEFILE_OPEN; a short read gives READFROMFILE_READ; a whole read sets the counters to the first three words of the padded buffer and the offset table to byte 6 |
| `PageManager.PageStore.Startup` | id_pm.c:42-47 | a full shutdown (closing the old handle) and then the open, with the open's three outcomes |
| `SoundManager.ResolveEmitter` | id_sd.cpp:389-406 | no emitter gives slot -1; an actor or door emitter gives its slot; an emitter of any other kind plays nothing |
| `SoundManager.PlayCalls` | id_sd.cpp:375-443 | a negative index or a missing sound table makes no call; a request makes at most one mixer call |
| `SoundManager.SilentRequests` | id_sd.cpp:408-413 | a sound that is not cached, or an emitter that is neither actor nor door, makes no mixer call |
| `SoundManager.DigitizedRouting` | id_sd.cpp:419-432 | a sound with a DigiMap entry d makes exactly one PCM call with DigiList[2d] fetched as a sound page, length DigiList[2d+1], the sound's little-endian priority and the resolved emitter, or fails with the page lookup's error; the outcome does not depend on whether sound effects are enabled |
| `SoundManager.AdlibRouting` | id_sd.cpp:434-442 | an AdLib call happens only for a non-negative index with no digitized variant while sound effects are enabled, with size audiostarts[at+1] - audiostarts[at]; with sound effects off, only PCM calls happen, and a sound with no digitized variant makes no call at all; conversely a cached sound with no digitized variant, effects on and an emitter that resolves makes exactly one AdLib call with its index, priority, segment, size, slot, kind and channel |
| `SoundManager.EmitterSlot` | id_sd.cpp:389-405 | every call names the emitter's slot, and names -1 exactly when there is no emitter |
| `SoundManager.WrapperArguments` | id_sd.cpp:468-487 | wall sounds are sent with no emitter, kind wall and the voice channel; door sounds with the door's slot, kind door and the voice channel |
| `SoundManager.ClampVolume` | id_sd.cpp:503-509 | the clamped volume lies in [min, max]; a volume inside the range is unchanged; below it gives min, above it gives max |
| `SoundManager.ClampNearestBound` | id_sd.cpp:500-526 | an out-of-range volume behaves exactly like the nearest bound, and clamping is idempotent |
| `SoundManager.CountDigiSounds` | id_sd.cpp:127-135 | the count is at most PMPageSize/4; the running page, advanced by each length rounded up to whole pages, stays below ChunksInFile-1 for every counted sound and reaches it at the count unless the page of pairs is exhausted |
| `SoundManager.DigiCountUnique` | id_sd.cpp:129-135 | the number of digitized sounds is determined by the table |
| `SoundManager.DigiWords` | id_sd.cpp:136-141 | DigiList holds the table's words converted from little-endian, in order |
| `SoundManager.DigiListPairs` | id_sd.cpp:124-141 | pair j of DigiList holds the page and the length word the count was made with |
| `SoundManager.SoundSystem.constructor` | id_sd.cpp:100-115 | the module variables start disabled and not started, with music index -1 and an empty trace |
| `SoundManager.SoundSystem.StopSound` | id_sd.cpp:301-304 | exactly one stop-all-effects call; nothing else changes |
| `SoundManager.SoundSystem.ShutDevice` | id_sd.cpp:172-175 | sound effects become disabled; nothing else changes |
| `SoundManager.SoundSystem.EnableSound` | id_sd.cpp:189-208 | stops all effects, returns enable && has-audio and sets the flag to it; SoundTable is repointed (AdLib table on, PC table off) only when the flag changes |
| `SoundManager.SoundSystem.MusicOn` | id_sd.cpp:326-330 | sqActive becomes true and the current track is sent to the mixer |
| `SoundManager.SoundSystem.MusicOff` | id_sd.cpp:338-342 | sqActive becomes false and music is stopped |
| `SoundManager.SoundSystem.EnableMusic` | id_sd.cpp:210-218 | music is turned off and the flag set to the argument, which is returned |
| `SoundManager.SoundSystem.StartMusic` | id_sd.cpp:350-372 | with music disabled: sqActive false, sqPlayedOnce true, only a stop call; with music enabled: the index is recorded, sqHackLen is (first little-endian word + 2) mod 2^16, sqActive true, sqPlayedOnce false, and the track is sent after the stop |
| `SoundManager.SoundSystem.PlayTrack` | id_sd.cpp:357-368 | the index is recorded, sqHack is the track's segment, sqHackLen is (first little-endian word + 2) mod 2^16, sqActive is true, and the track is sent to the mixer |
| `SoundManager.SoundSystem.SoundPlaying` | id_sd.cpp:286-293 | returns the mixer's answer while sound effects are enabled, and false otherwise |
| `SoundManager.SoundSystem.SetupDigi` | id_sd.cpp:121-146 | DigiList holds 2*count words of the last chunk, count as CountDigiSounds, and every DigiMap entry is -1; a failing page lookup changes nothing |
| `SoundManager.SoundSystem.ResetDetection` | id_sd.cpp:226-243 | the four probe flags are cleared and at most the one the option names is set |
| `SoundManager.SoundSystem.StartMixer` | id_sd.cpp:250-256 | has-audio becomes the detection result; the mixer is initialised at 44100 Hz with audio and uninitialised without |
| `SoundManager.SoundSystem.ResetDevices` | id_sd.cpp:226-256 | probe flags reset, sound and music off, the mixer started or not: the three mixer calls in order and the resulting flags |
| `SoundManager.SoundSystem.Startup` | id_sd.cpp:220-261 | a no-op once started; otherwise the device reset, the digitized tables built as SetupDigi states, and started set |
| `SoundManager.SoundSystem.Shutdown` | id_sd.cpp:263-277 | a no-op unless started; otherwise one uninitialise call, the music released and started cleared |
| `SoundManager.SoundSystem.PlaySound` | id_sd.cpp:375-443 | appends exactly the calls PlayCalls gives for the state before the call, or fails with its error; no variable changes |
| `SoundManager.SoundSystem.PlayActorSound` | id_sd.cpp:445-455 | the request as PlaySound with the actor as an actor emitter |
| `SoundManager.SoundSystem.PlayPlayerSound` | id_sd.cpp:457-466 | the request as PlaySound with the player's slot as an actor emitter |
| `SoundManager.SoundSystem.PlayDoorSound` | id_sd.cpp:468-477 | the request as PlaySound with the door as a door emitter on the voice channel |
| `SoundManager.SoundSystem.PlayWallSound` | id_sd.cpp:479-487 | the request as PlaySound with no emitter, kind wall, voice channel |
| `SoundManager.SoundSystem.SetSfxVolume` | id_sd.cpp:500-512 | one effects-gain call carrying the clamped volume and the maximum |
| `SoundManager.SoundSystem.SetMusicVolume` | id_sd.cpp:514-526 | one music-gain call carrying the clamped volume and the maximum |
| `VideoHigh.ClipToGrid` | id_vh.c:209-233 | the block is given up exactly when xt1 >= UPDATEWIDE, yt1 > UPDATEHIGH, xt2 < 0 or yt2 < 0; a kept block has 0 <= xt1, xt2 < UPDATEWIDE, 0 <= yt1 <= UPDATEHIGH and 0 <= yt2 < UPDATEHIGH |
| `VideoHigh.MarkedTiles` | id_vh.c:204-246 | after marking, a cell is 1 exactly when its tile lies under the unclipped rectangle (tile = pixel >> 4), and keeps its value otherwise |
| `VideoHigh.MarkIdempotent` | id_vh.c:238-244 | marking the same rectangle twice gives the grid that marking it once gives |
| `VideoHigh.MarkOnlySetsOnes` | id_vh.c:241 | every cell keeps its value or becomes 1 |
| `VideoHigh.KeptIffOnGrid` | id_vh.c:196-233 | for an ordered rectangle whose top is not in the row just below the grid, the call returns 1 exactly when some grid cell lies under it |
| `VideoHigh.EdgeRowMarksNothing` | id_vh.c:220-244 | a rectangle whose top lies in tile row UPDATEHIGH is kept (the call returns 1) yet no cell is marked |
| `VideoHigh.CStrLen` | id_vh.c:166 | the string is the bytes before the first NUL |
| `VideoHigh.TextWidthAppend` | id_vh.c:166-167 | widths add up over concatenation |
| `VideoHigh.MeasureString` | id_vh.c:162-168 | height is the font height; width is the sum, mod 2^16, of the widths of the characters before the NUL (0 for an empty string) |
| `VideoHigh.MeasureConcat` | id_vh.c:162-168 | the measured width of a NUL-free prefix followed by a string is the 16-bit sum of their measured widths |
| `VideoHigh.MaskFor` | id_vh.c:63 | the plane mask is one of 1, 2, 4, 8 |
| `VideoHigh.ScanColumns` | id_vh.c:63-106 | one column per unit of width; column k is drawn with mask 1 << ((px0 + k) & 3) at byte offset ((px0 + k) >> 2) - (px0 >> 2); px ends at px0 plus the total width, in 16 bits, and dest at the byte of the end column |
| `VideoHigh.VideoState.constructor` | id_vh.c:37-40 | the cursor and buffer globals start at 0 |
| `VideoHigh.VideoState.MarkUpdateBlock` | id_vh.c:204-247 | returns 0 when the block is given up and 1 otherwise, and the grid becomes MarkResult of the old grid |
| `VideoHigh.VideoState.MarkTiles` | id_vh.c:235-244 | the row loop with the pointer stride nextline = UPDATEWIDE - (xt2 - xt1) - 1 sets exactly the clipped block |
| `VideoHigh.VideoState.MarkRow` | id_vh.c:240-241 | the inner loop sets tiles xt1..xt2 of one row and leaves the pointer one past the last |
| `VideoHigh.VideoState.DrawTile8` | id_vh.c:249-253 | marks (x, y)-(x+7, y+7) and draws exactly when the mark returns nonzero |
| `VideoHigh.VideoState.DrawPic` | id_vh.c:265-277 | x is rounded down to a multiple of 8 (x & ~7) before (x, y)-(x+width-1, y+height-1) is marked; draws exactly when kept |
| `VideoHigh.VideoState.DrawMPic` | id_vh.c:283-293 | marks (x, y)-(x+width-1, y+height-1) without rounding; draws exactly when kept |
| `VideoHigh.VideoState.Bar` | id_vh.c:305-309 | marks through column x+width inclusive and rows y..y+height-1; draws exactly when kept |
| `VideoHigh.VideoState.Plot` | id_vh.c:311-315 | marks the single pixel; draws exactly when kept |
| `VideoHigh.VideoState.Hlin` | id_vh.c:317-321 | marks row y from x1 to x2; draws exactly when kept |
| `VideoHigh.VideoState.Vlin` | id_vh.c:323-327 | marks column x from y1 to y2; draws exactly when kept |
| `VideoHigh.VideoState.LatchDrawPic` | id_vh.c:355-366 | x is multiplied by 8 in 16 bits before the picture's block is marked; draws exactly when kept |
| `VideoHigh.VideoState.MeasurePropString` | id_vh.c:170-173 | MeasureString in the current font |
| `VideoHigh.VideoState.DrawPropString` | id_vh.c:50-109 | the columns drawn are as ScanColumns states; px advances by the width; bufferheight is the font height; bufferwidth = 4 × ((px0 + w) >> 2 − (px0 >> 2) + 1), which is one byte more than is drawn when the string ends on a byte boundary, and 4 for an empty string |
| `VideoHigh.VideoState.DrawPropStringMarked` | id_vh.c:296-302 | draws the string (px, bufferheight and bufferwidth as DrawPropString leaves them), then marks columns px0 to px0 + w − 1 for the font height from py; for an empty string this is the reversed rectangle (px0, py)-(px0 − 1, py + h − 1), which still marks a tile column when px0 is not a multiple of 16 |

## Left out

- The audio mixer's internals are not modelled: channel arbitration, pre-emption, rendering, `is_any_sfx_playing`, `update_positions` and `is_player_channel_playing` (and so `sd_update_positions` and `sd_is_player_channel_playing`). Their source is not part of this model. Mixer calls are only recorded in the trace, and the answer of `is_any_sfx_playing` is a parameter of `SoundPlaying`.
- The forwarded gain is the float `volume / sd_max_volume`. The trace records the pair (clamped volume, maximum) instead.
- Emitters are identified by pointer subtraction in the source. The model uses an abstract slot number instead.
- `SDL_Init` (hardware detection) and `g_args.check_argument` are external. Their results are the parameters `detected` and `parm` of `Startup`.
- `TimeCount` and the busy-wait of `SD_WaitSoundDone` are left out. They are timing, not logic.
- `SDL_StartDevice` is empty in the source, so the model makes no call for it.
- The dead `SD_PLAYSOUND_UNCACHED` branch of `sd_play_sound` is not modelled. A missing sound has already returned when it is reached.
- File I/O is not modelled: `open`, `filelength`, `read`, `malloc`/`free`, `close`. A file is given as a `PageFileImage` (missing, truncated, or its bytes). Closing is recorded in the ghost `closedHandles`.
- The source's error calls (`PM_ERROR`, `SD_ERROR`) end the program. The model returns the error instead. The state is what it was when the error was raised, except after a short read (see the next line).
- `PageManager.PageStore.OpenPageFile`: after a short read, the source has already allocated the buffer and zeroed its tail. The model records the handle but no buffer, because the bytes a short read delivers are unknown and the program then quits.
- Header words and offsets are read little-endian. The source reads them in host order, so the model assumes a little-endian host.
- An offset-table entry outside the buffer is read beyond the allocation in the source. The model gives it the extra error `OffsetTableOverrun`.
- `PageManager.GetPage`: requires a non-negative page number. The source does not check negative numbers and would read before the offset table.
- `SoundManager.SoundSystem.SetupDigi`: requires the chunk count to be at least 1 and the last chunk to start a page before the end of the buffer. `DigiTableInBuffer` states this. With no chunks, the source looks up page -1; beyond that, it reads past the buffer.
- `SoundManager.SoundSystem.Startup`: requires the same of the page file when not yet started, because it calls SDL_SetupDigi. A failed lookup leaves the system not started, where the source quits.
- `SoundManager.SoundSystem.StartMusic`: with music enabled, it requires the index to name a music track, that track's segment to be cached, and SD_Shutdown not to have freed the music yet. The source reads the segment unchecked. With music disabled, any index is accepted, as in the source.
- `SoundManager.SoundSystem.PlaySound`: requires the sound index to be below the sound count and every DigiMap entry to name a pair of DigiList. The wrappers require the same. The source indexes these tables unchecked.
- The video hardware is not modelled: VGA map-mask writes, `VL_MemToScreen`, `VL_MaskMemToScreen`, `LatchDrawChar`, `VL_LatchToScreen`, `VW_Bar`/`VW_Plot`/`VW_Hlin`/`VW_Vlin`. The wrappers return whether they would draw.
- Glyph locations, the pixel data and the source pointer of `VW_DrawPropString` are not modelled. The drawn column's mask and destination byte are returned instead.
- `LoadLatchMem`, `FizzleFade` and every `#if 0` block of `id_vh.c` are left out. They are cache and latch transfers and timed screen effects.
- `id_in.h` is left out. It holds only input declarations.
- `VideoHigh.MeasureString`: font widths are read as unsigned bytes, and the end of the byte sequence also ends the string. The font structure is not part of this model, and a signed `char` width of 128 or more is not modelled.
- `VideoHigh.VideoState.MarkUpdateBlock`: `uwidthtable[y]` is taken to be `y * UPDATEWIDE`. The table is not part of this model. When yt1 is UPDATEHIGH, the source reads the entry one past the table's end, but that entry is never used for a write.
