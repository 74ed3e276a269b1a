# Icon extractor model

A Dafny model of the icon acquisition and caching engine of Seelen UI
(`src/background/utils/icon_extractor/mod.rs`):

- `bgra_to_rgba`, which reorders a BGRA pixel buffer to RGBA in place, 16 bytes at a time;
- `crop_transparent_borders`, which cuts an RGBA icon down to the rows and columns holding
  pixels with non-zero alpha;
- `extract_and_save_icon_from_file` and `extract_and_save_icon_umid`, which check the icon
  pack for a cached entry, pick a strategy (`.url` placeholder, direct retrieval, shortcut
  target, packaged-app theme icons, start-menu shortcut for a property-store id), store the
  asset, record it in the app or file namespace and write the pack;
- the line scan of the unused `get_icon_from_url_file`.

Files: `types.dfy` (bytes, `Option`), `pixel_format.dfy`, `border_crop.dfy`,
`icon_cache.dfy` (the `Icon` descriptor and the icon manager), `environment.dfy` (the outside
world: queries as functions in `Platform`, effects on the icon store in `Host`),
`extraction.dfy` (the two entry points as methods over the manager and the host, each proved
equal to a function `FromFile`/`FromUmid` over a `World` value; the branches of
`extract_and_save_icon_from_file` after the cache check are methods of their own, each proved
equal to the matching part of `FromFile`), `extraction_facts.dfy`
(what the entry points promise, proved about those functions) and `url_file.dfy`.

The model follows the code where it departs from what the component is meant to do:
- `bgra_to_rgba` does not convert a tail shorter than 16 bytes: the code has no scalar tail
  path, so those bytes keep their BGRA order.
- The left and right scans of `crop_transparent_borders` look at rows `top..bottom`, without
  the bottom row, where a bounding box would need rows `top..=bottom`. So an image whose visible pixels share one
  row, a single visible pixel included, crops to the 1x1 transparent image (`CropSinglePixel`),
  and a fully opaque image is returned unchanged only when it has at least two rows
  (`CropOpaque`, `CropSingleRow`).
- Each failure site gets an `Error` constructor. Copy, save and pack-write failures share
  `IoError`, and the errors of `resolve_lnk_target` and of the packaged-app icon lookup are
  `LnkUnresolved` and `UwpIconMissing`; their payloads are not modelled.

The recursion from a shortcut to its target has no bound in the source. The model adds a
`fuel` parameter, decreased at each shortcut-to-target step, and fails with `OutOfFuel` when
it runs out. `FromFileFuelMonotone` shows that this bound changes nothing for a call that did
not run out of it.

## Model

| member | source | states |
|---|---|---|
| PixelFormat.BgraToRgba | src/background/utils/icon_extractor/mod.rs:46-82 | the buffer becomes `Converted` of the old buffer: every full 16-byte chunk shuffled by the mask, the rest untouched |
| PixelFormat.ShuffleChunk | src/background/utils/icon_extractor/mod.rs:58-60 | one loaded 16-byte chunk is stored back shuffled by the mask; no other byte changes |
| PixelFormat.ConvertedPixel | src/background/utils/icon_extractor/mod.rs:49-54 | in a full chunk, pixel k has bytes 4k and 4k+2 swapped and bytes 4k+1 and 4k+3 kept; length unchanged |
| PixelFormat.ConvertedTail | src/background/utils/icon_extractor/mod.rs:57 | the trailing `len % 16` bytes are unchanged |
| PixelFormat.ConvertedInvolutive | src/background/utils/icon_extractor/mod.rs:48-55 | converting twice restores the original buffer |
| BorderCrop.First | src/background/utils/icon_extractor/mod.rs:155-163 | a forward early-exit scan returns the first index with the property, or none when no index has it |
| BorderCrop.Last | src/background/utils/icon_extractor/mod.rs:170-178 | a backward early-exit scan returns the last index with the property, or none when no index has it |
| BorderCrop.FirstUnique | src/background/utils/icon_extractor/mod.rs:155-163 | the forward scan returns i exactly when i is the first index with the property |
| BorderCrop.LastUnique | src/background/utils/icon_extractor/mod.rs:170-178 | the backward scan returns i exactly when i is the last index with the property |
| BorderCrop.ScanBounds | src/background/utils/icon_extractor/mod.rs:150-213 | found bounds satisfy top <= bottom < height and left <= right < width |
| BorderCrop.SubImage | src/background/utils/icon_extractor/mod.rs:215-217 | the view copy is a valid image of the requested width and height |
| BorderCrop.SubImageAt | src/background/utils/icon_extractor/mod.rs:215-217 | pixel (i, j) of the copy is pixel (left+i, top+j) of the source |
| BorderCrop.ScanTop | src/background/utils/icon_extractor/mod.rs:155-163 | the nested early-exit loops return the first row holding a visible pixel, as `First` over the rows |
| BorderCrop.ScanBottom | src/background/utils/icon_extractor/mod.rs:170-178 | the backward loops return the last visible row at or after `top`, as `Last` |
| BorderCrop.ScanLeft | src/background/utils/icon_extractor/mod.rs:185-193 | the loops over columns, then rows `top..bottom`, return the first visible column, as `First` |
| BorderCrop.ScanRight | src/background/utils/icon_extractor/mod.rs:200-208 | the backward loops over columns from `left` return the last visible column within rows `top..bottom`, as `Last` |
| BorderCrop.CropTransparentBorders | src/background/utils/icon_extractor/mod.rs:148-218 | the four early-exit scans and the copy compute `Cropped(img)` |
| BorderCrop.CropNothingVisible | src/background/utils/icon_extractor/mod.rs:155-168 | with no pixel of non-zero alpha the result is the 1x1 all-zero image |
| BorderCrop.CropFindsBoundsIff | src/background/utils/icon_extractor/mod.rs:180-198 | the scans find bounds if and only if two visible pixels lie on different rows; otherwise the result is the 1x1 sentinel |
| BorderCrop.CropSingleRow | src/background/utils/icon_extractor/mod.rs:185-198 | when every visible pixel is on one row the result is the 1x1 transparent image |
| BorderCrop.CropSinglePixel | src/background/utils/icon_extractor/mod.rs:185-198 | an image with one visible pixel crops to the sentinel, not to that pixel |
| BorderCrop.CropGeneral | src/background/utils/icon_extractor/mod.rs:170-217 | for the first/last visible rows and the first/last visible columns within rows [top, bottom), the result is (right-left+1) x (bottom-top+1), at least 1x1 and no larger than the input, with out(i, j) = in(left+i, top+j) |
| BorderCrop.CropOpaque | src/background/utils/icon_extractor/mod.rs:148-218 | a fully opaque image with width >= 1 and height >= 2 is returned unchanged |
| BorderCrop.CroppedInclusiveKeepsVisible | src/background/utils/icon_extractor/mod.rs:185-216 | with the column scans over rows top..=bottom, every visible pixel is inside the bounds and copied unchanged, and each edge of the bounds holds a visible pixel |
| BorderCrop.CroppedInclusiveSinglePixel | src/background/utils/icon_extractor/mod.rs:185-216 | with the corrected scans, a single visible pixel crops to a 1x1 image of that pixel |
| IconCache.IconPackManager.GetAppIcon | src/background/utils/icon_extractor/mod.rs:298 | returns the app-namespace entry for the key, and none exactly when the key is absent |
| IconCache.IconPackManager.GetFileIcon | src/background/utils/icon_extractor/mod.rs:301 | delegates to the abstract lookup `Platform.fileIcon` on the current file namespace only |
| IconCache.IconPackManager.AddSystemAppIcon | src/background/utils/icon_extractor/mod.rs:328 | inserts or overwrites one app entry; the file namespace and the written pack are unchanged |
| IconCache.IconPackManager.AddSystemFileIcon | src/background/utils/icon_extractor/mod.rs:330 | inserts or overwrites one file entry; the app namespace and the written pack are unchanged |
| IconCache.IconPackManager.WriteSystemIconPack | src/background/utils/icon_extractor/mod.rs:332 | a successful write makes the persisted pack equal to the in-memory pack; a failed one leaves it |
| Environment.Host.NewUuid | src/background/utils/icon_extractor/mod.rs:307 | each draw gives the next uuid of the supply |
| Environment.Host.RetrieveIcon | src/background/utils/icon_extractor/mod.rs:325 | `get_icon_from_file` is logged and its success is the provider's answer |
| Environment.Host.SaveIcon | src/background/utils/icon_extractor/mod.rs:326 | a successful save adds the file to the store; a failed one adds nothing |
| Environment.Host.CopyIcon | src/background/utils/icon_extractor/mod.rs:318 | a successful copy adds the file to the store; a failed one adds nothing |
| Extraction.Lower | src/background/utils/icon_extractor/mod.rs:284 | the extension is lower-cased: no upper-case letter remains and other characters are kept |
| Extraction.ExtractAndSaveIconFromFile | src/background/utils/icon_extractor/mod.rs:277-351 | the outcome and the new manager and host state are those of `FromFile` |
| Extraction.ExtractUncached | src/background/utils/icon_extractor/mod.rs:305-350 | after a cache miss, the uuid draw and the strategy chosen by the extension give the outcome and state of `FromUncached` |
| Extraction.SaveUrlIcon | src/background/utils/icon_extractor/mod.rs:316-322 | the `.url` placeholder copy, the "url" entry and the pack write give the outcome and state of `StoreUrl` |
| Extraction.SaveRetrievedIcon | src/background/utils/icon_extractor/mod.rs:325-334 | saving a retrieved icon, recording it per path or per extension and writing the pack give the outcome and state of `StoreRetrieved` |
| Extraction.ExtractFromTarget | src/background/utils/icon_extractor/mod.rs:337-348 | resolving a shortcut, extracting its target and aliasing the shortcut to the target's entry give the outcome and state of `FromTarget` |
| Extraction.ExtractAndSaveIconUmid | src/background/utils/icon_extractor/mod.rs:354-398 | the outcome and the new manager and host state are those of `FromUmid` |
| ExtractionFacts.FromFileShortCircuits | src/background/utils/icon_extractor/mod.rs:279-303 | a missing path or a directory fails; no extension, or a cache hit (app key for exe/lnk, file lookup otherwise), succeeds with nothing changed and nothing retrieved |
| ExtractionFacts.FromFileUrl | src/background/utils/icon_extractor/mod.rs:315-322 | a `.url` file records `Static("<uuid>.png")` under the fixed file key "url" after the copy; a failed copy records nothing; no retrieval |
| ExtractionFacts.FromFileDirect | src/background/utils/icon_extractor/mod.rs:324-334 | a retrieved icon is saved, then recorded under the path (exe/lnk) or the lower-cased extension; a failed save records nothing; success means the pack was written |
| ExtractionFacts.FromFileNoIcon | src/background/utils/icon_extractor/mod.rs:336-350 | without an icon a non-shortcut fails; an unresolved shortcut fails; a failing target extraction or a target with no app entry fails; a successful target extraction with an app entry gives the shortcut that entry, changes nothing else, and succeeds exactly when the pack write does |
| ExtractionFacts.FromFileKeepsStoreBacked | src/background/utils/icon_extractor/mod.rs:316-347 | every file referred to by a pack entry stays present in the store |
| ExtractionFacts.FromFileGrows | src/background/utils/icon_extractor/mod.rs:277-351 | keys, stored files, retrievals and drawn uuids are only added to |
| ExtractionFacts.FromFileWritesThrough | src/background/utils/icon_extractor/mod.rs:319-347 | a success that changed the pack leaves the persisted pack equal to it |
| ExtractionFacts.FromFileSecondCallIsHit | src/background/utils/icon_extractor/mod.rs:297-300 | after a successful exe/lnk extraction the path is cached and a second call changes nothing and retrieves nothing |
| ExtractionFacts.FromFileSharedByExtension | src/background/utils/icon_extractor/mod.rs:301-330 | with a lookup by extension, one successful extraction makes every file of that extension, every `.url` included, a cache hit |
| ExtractionFacts.FromFileFuelMonotone | src/background/utils/icon_extractor/mod.rs:339-340 | more recursion budget gives the same result to a call that did not run out |
| ExtractionFacts.FromUmidCacheHit | src/background/utils/icon_extractor/mod.rs:356-361 | an app id already cached succeeds with nothing changed |
| ExtractionFacts.FromUmidAppx | src/background/utils/icon_extractor/mod.rs:365-382 | both theme icons are copied under one uuid n, then `Dynamic("n_light.png", "n_dark.png", None)` is recorded; a failed copy records nothing |
| ExtractionFacts.FromUmidPropertyStore | src/background/utils/icon_extractor/mod.rs:383-396 | no shortcut fails with nothing changed; a failing shortcut extraction or a shortcut with no entry fails; a successful shortcut extraction with an entry gives the id that entry, changes nothing else, and succeeds exactly when the pack write does |
| ExtractionFacts.FromUmidKeepsStoreBacked | src/background/utils/icon_extractor/mod.rs:354-398 | every file referred to by a pack entry stays present in the store |
| ExtractionFacts.FromUmidGrows | src/background/utils/icon_extractor/mod.rs:354-398 | keys, stored files, retrievals and drawn uuids are only added to |
| ExtractionFacts.FromUmidSecondCallIsHit | src/background/utils/icon_extractor/mod.rs:357-360 | after a success the id is cached and a second call changes nothing |
| UrlFile.IconFileEntry | src/background/utils/icon_extractor/mod.rs:257-269 | returns the rest of the first line starting with `IconFile=`, and none exactly when no line does |

## Left out

- `convert_hicon_to_rgba_image` and `get_icon_from_file`: GDI and shell calls. They are the retrieval oracle `Platform.iconFromFile`. A zero `iIcon` counts as a failure. The pixels of the retrieved icon are not modelled, so the saved image is not tied to `BgraToRgba` or `CropTransparentBorders`.
- The SIMD and NEON intrinsics: only their byte-level effect is modelled.
- Locking and the global state (`FULL_STATE`, `trace_lock!`, the windows where the lock is dropped): the calls run one after another on one manager.
- The persisted icon-pack format: `write_system_icon_pack` is a write that succeeds or fails according to `Platform.writeOk`.
- Path queries (`exists`, `is_dir`, `extension`), `get_file_icon`'s matching rule, `resolve_lnk_target`, the UWP and start-menu managers and uuid generation: these are oracles in `Platform`. The uuid supply is not assumed to give distinct names.
- The `file_name()` check at line 305: it cannot fail once `extension()` has returned an extension.
- Extraction.Lower: lower-cases ASCII letters only. Rust's `to_lowercase` also folds other Unicode letters.
- ExtractionFacts.FromFileSharedByExtension: needs the assumption that `get_file_icon` looks a path up by its lower-cased extension. The source does not show that rule.
- UrlFile.IconFileEntry: opening and reading the file, and its I/O errors, are left out. So is the `get_icon_from_file` call on the path found, which is the retrieval oracle.
- Logging.
- `src/service/cli/tcp.rs` is not part of this model. It is loopback socket plumbing with no algorithm.

## Findings

| source | as written | input that shows it | evidently intended | confidence | as-written member | corrected member |
|---|---|---|---|---|---|---|
| src/background/utils/icon_extractor/mod.rs:186 | the left and right scans iterate rows `top..bottom`, so the bottom row never counts | any image whose only visible pixel is (x, y), e.g. a 1x1 opaque pixel: the result is the 1x1 transparent image and the pixel is lost | rows `top..=bottom`, so the crop is the bounding box of all visible pixels | high (not executed) | BorderCrop.CropSinglePixel | BorderCrop.CroppedInclusiveKeepsVisible |

`CropTransparentBorders` models the scans as written, because the icon pipeline stores what
the source produces. The corrected crop is `BorderCrop.CroppedInclusive`. The rest of the
model does not use either crop, because the retrieved image is abstract.
