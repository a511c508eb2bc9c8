# Editing-operation engine, modelled in Dafny

The app keeps a registry of editing features. Each feature has a string id, a `canRun(on:)` test over the asset type, and a `run(on:params:completion:)` method. That method checks its `[String: Any]` parameters, builds an AVFoundation composition, video composition or audio mix, and starts an export session. The session's final status is reported as a `Result`.

This project models the rules underneath that plumbing:

- **`registry.dfy`, `ids.dfy`:** the registry.
  - `EditingEngine` is a class whose `features` sequence `Register` appends to.
  - `FeatureWithId` searches it with a loop.
  - The 66 registrations of `registerAllFeatures` are six methods of eleven `Register` calls each.
  - The registered ids are proved pairwise distinct, so every id resolves to its own feature.
- **`media.dfy`:** the parameter map.
  - It is a `map<string, Value>` with one `Value` constructor per Swift type that the features cast to.
  - The `as?` casts are functions to `Option`.
  - Errors are `(domain, code)` pairs.
- **`features.dfy`:** the 66 features.
  - Their ids, each `canRun(on:)`, and each feature's error domain.
  - The required parameters, with their types, that its first guard checks.
- **`timeline.dfy`:** time-range and track computations.
  - The `insertTime` loop of Concat and MergeAudio: `Concatenate`, a method over a `MutableComposition` class.
  - The time ranges of Speed, AddAudio and RemoveAudio.
- **`geometry.dfy`, `transforms.dfy`:** the affine transforms and render sizes of Crop, Upscale, Rotate, Flip and ChangeCanvas.
  - Transforms are `CGAffineTransform` in CoreGraphics' row-vector convention.
  - `scaledBy` and `translatedBy` apply the new operation before the existing transform.
  - Flip builds its transform step by step in the method `FlipTransform`.
- **`audiomix.dfy`:** the volume ramps and levels of FadeAudio, Volume, AudioFadeIn and AudioFadeOut.
- **`export.dfy`:** export jobs.
  - ExportFormat's format table.
  - The configured export job.
  - The completion handler's mapping from the session status to the `Result`.
- **`runs.dfy`:** each feature's `run` up to its export.
  - A function returns the immediate failure, the export job it starts, or `External` for work that leaves the model (CoreImage, the image generator, file copies).
  - What the media framework reports is a parameter, `Env`: the tracks and duration of a file, whether a session can be created, and cosine and sine.
- **`behaviour.dfy`:** properties shared by all features.
  - The parameter guard comes first.
  - The placeholder features always fail with code 99.
  - Errors and output names fit the feature.
  - `run` never consults `canRun(on:)`.

Time is modelled as `real` seconds and geometry as `real`.

The model adds no behaviour the code does not have:

- `register` does not reject a duplicate id.
- `run` does not check `canRun(on:)`.
- `run` does not dispatch to an "unsupported asset kind" error.
- An overlapping fade-in and fade-out are not clamped.
- `registerAllFeatures` registers the features in its own order (`Registry.RegistrationOrder`), not in the order the classes are declared.

## Model

| member | source | states |
|---|---|---|
| Registry.EditingEngine.constructor | ContentView.swift:29 | A new engine has no features. |
| Registry.EditingEngine.Register | ContentView.swift:31-33 | The new feature list is the old list with the feature appended at the end; no duplicate check. |
| Registry.EditingEngine.FeatureWithId | ContentView.swift:35-37 | The linear search returns exactly `FirstWithId(features, id)`, the first entry with that id or none. |
| Registry.FirstWithId | ContentView.swift:35-37 | `features.first(where: { $0.id == id })` on a sequence: none for the empty list, and the first entry whose id matches (its properties are the two lemmas below). |
| Registry.FirstWithIdFindsFirstMatch | ContentView.swift:35-37 | When the result is some entry it has the id, and it is the entry at the smallest index with that id. |
| Registry.FirstWithIdNoneIffAbsent | ContentView.swift:35-37 | The lookup finds nothing if and only if no entry has the id. |
| Registry.AppendKeepsEarlierLookups | ContentView.swift:31-37 | After an append, an id that was found before still finds the same entry; an id that was not found finds the appended feature exactly when it has that id. |
| Registry.RegisterAllFeatures | ContentView.swift:39-106 | The engine's list grows by exactly the 66 registrations, in source order. |
| Registry.RegisterGroup0 | ContentView.swift:40-50 | Appends registrations 0 to 10. |
| Registry.RegisterGroup1 | ContentView.swift:51-61 | Appends registrations 11 to 21. |
| Registry.RegisterGroup2 | ContentView.swift:62-72 | Appends registrations 22 to 32. |
| Registry.RegisterGroup3 | ContentView.swift:73-83 | Appends registrations 33 to 43. |
| Registry.RegisterGroup4 | ContentView.swift:84-94 | Appends registrations 44 to 54. |
| Registry.RegisterGroup5 | ContentView.swift:95-105 | Appends registrations 55 to 65. |
| Registry.PositionLocates | ContentView.swift:40-105 | Every feature is registered, at index `Position(f)`. |
| Registry.PositionOfEntry | ContentView.swift:40-105 | The entry at index i is registered only there: `Position` inverts the registration order. |
| RegisteredIds.FeatureOfIdInvertsId | ContentView.swift:40-105 | Every feature's id string is recovered into that feature. |
| RegisteredIds.IdInjective | ContentView.swift:40-105 | Two features have the same id if and only if they are the same feature. |
| RegisteredIds.IdsPairwiseDistinct | ContentView.swift:40-105 | Any two different registrations have different ids. |
| RegisteredIds.DistinctEntryResolves | ContentView.swift:35-37 | In any list, an entry with no earlier entry of the same feature is what its id resolves to. |
| RegisteredIds.EveryIdResolvesToItsFeature | ContentView.swift:35-106 | After registerAllFeatures, the id of every feature resolves to that feature. |
| RegisteredIds.LookupFailsIffUnknown | ContentView.swift:35-106 | After registerAllFeatures, a lookup fails if and only if no feature has that id. |
| Media.CastSucceedsIffMeets | ContentView.swift:116-119 | Each typed cast of a parameter succeeds exactly when the key is present with a value of that type. |
| Media.ConformsOne | ContentView.swift:544-547 | A one-parameter guard passes exactly when that parameter is present and well-typed. |
| Media.ConformsTwo | ContentView.swift:116-119 | A two-parameter guard passes exactly when both parameters are present and well-typed. |
| Media.ConformsFour | ContentView.swift:194-199 | A four-parameter guard passes exactly when all four parameters are present and well-typed. |
| Media.AsDouble | ContentView.swift:116-117 | `params[key] as? Double`: the value when the key holds a Double, none otherwise (likewise AsFloat, AsCGFloat, AsBool, AsString, AsAsset, AsAssetList, AsMetadata for their types). |
| Media.Conforms | ContentView.swift:116-119 | A guard over several parameters passes when every required parameter is present with its type. |
| Features.CanRunAcceptsOneOrTwoTypes | ContentView.swift:114 | Every feature accepts at least one asset type and never all three. |
| Features.Id | ContentView.swift:110 | The id string each feature class declares (Trim's "trim" at 110, … ChangeCanvas's "change_canvas" at 1988); proved injective by `RegisteredIds.IdInjective`. |
| Features.CanRun | ContentView.swift:114 | Each class's `canRun(on:)` as a predicate of the asset type (Trim: video only at 114, FadeAudio: video or audio at 419, the filters: video or image at 600). |
| Features.Domain | ContentView.swift:118 | The NSError domain every error of a feature carries ("Trim" at 118, and one such name per feature class); the copying features build no NSError. |
| Features.Schema | ContentView.swift:116-119 | The parameters, with their Swift types, that a feature's first guard requires; empty for the features whose first guard reads no parameter. |
| Features.CanRunDependsOnTypeOnly | ContentView.swift:191 | `canRun(on:)` depends on the asset type alone, not on its location. |
| Features.ImageFiltersAcceptVideoAndImage | ContentView.swift:600 | Every image filter accepts video and image assets and refuses audio. |
| Timeline.MutableComposition.constructor | ContentView.swift:157 | A new composition has no tracks. |
| Timeline.MutableComposition.AddTrack | ContentView.swift:161-163 | Adding a track appends it and changes nothing else. |
| Timeline.Concatenate | ContentView.swift:157-165 | The loop over `[asset] + others` appends exactly `ConcatTracks`, one track per clip with the track, at the running offset; the final `insertTime` is the sum of the included durations. |
| Timeline.ConcatStep | ContentView.swift:160-164 | One loop step: a clip without the track adds nothing and keeps the offset; a clip with it adds one track at the current offset and advances by its duration. |
| Timeline.ConcatTracks | ContentView.swift:157-165 | The tracks the Concat and MergeAudio loop adds, defined clip by clip: a clip without the track adds none, every other one goes at the sum of the earlier included durations; `Concatenate` is proved to build exactly this. |
| Timeline.SumAppend | ContentView.swift:164 | Advancing past one more included clip adds exactly its duration to the offset. |
| Timeline.SumNonNegative | ContentView.swift:158 | The offset starts at zero and never becomes negative. |
| Timeline.SumPrefixMonotone | ContentView.swift:164 | The offset never decreases along the walk. |
| Timeline.ConcatTrackAt | ContentView.swift:157-165 | The k-th inserted track is the k-th included clip, whole, inserted at the sum of the durations of the earlier included clips. |
| Timeline.ConcatLength | ContentView.swift:157-165 | There is one track per included clip: skipped assets add none. |
| Timeline.ConcatContiguous | ContentView.swift:157-165 | Each inserted track ends exactly where the next one starts. |
| Timeline.ConcatDisjoint | ContentView.swift:157-165 | Inserted tracks start at non-negative times and an earlier track ends no later than a later one starts, so no two overlap. |
| Timeline.ConcatEndsAtTotal | ContentView.swift:157-165 | The last inserted track ends at the sum of the included durations. |
| Timeline.SpeedRescales | ContentView.swift:253-254 | Speed inserts the whole source once at time zero and stretches it so that length times factor equals the source duration. |
| Timeline.SpeedTracks | ContentView.swift:252-254 | Speed's composition: the whole source inserted at zero and scaled to duration × (1 / factor); its meaning is `SpeedRescales`. |
| Timeline.AddAudioAligned | ContentView.swift:1181-1189 | AddAudio inserts the video track and the audio track at zero, both for the video's duration. There is a video track exactly when the file has one, and it comes from the video file. There is an audio track exactly when the audio file has one, and it comes from the audio file. |
| Timeline.AddAudioTracks | ContentView.swift:1181-1189 | AddAudio's composition: the video track, when present, and the audio file's audio track, when present, both for the video's duration from zero; its meaning is `AddAudioAligned`. |
| Timeline.VideoOnlyTracks | ContentView.swift:1220-1223 | RemoveAudio keeps exactly one track when the file has a video track: the video track, inserted at zero over the whole duration. With no video track it keeps nothing. It never keeps an audio track. |
| Transforms.TruncateTowardZero | ContentView.swift:209 | `Int32(Double)` truncates toward zero: for non-negative x, n ≤ x < n + 1; for negative x, n − 1 < x ≤ n. |
| Geometry.ScaledBy | ContentView.swift:392 | `t.scaledBy(x:y:)`: the scale applied before t, so every point is scaled and then mapped by t. |
| Geometry.TranslatedBy | ContentView.swift:392 | `t.translatedBy(x:y:)`: the translation applied before t, so every point is translated and then mapped by t. |
| Transforms.Frame | ContentView.swift:207-214 | The video composition's instruction covers [0, duration) and carries the given render size and layer transform. |
| Transforms.CropComposition | ContentView.swift:206-214 | Crop's video composition: render size (w, h) and the translation by (−x, −y) at time zero; its meaning is `CropKeepsExactlyTheRectangle`. |
| Transforms.CropKeepsExactlyTheRectangle | ContentView.swift:208-214 | Crop renders at (w, h), and its translation maps a point into the render rectangle exactly when it lies in the crop rectangle; (x, y) goes to the origin. |
| Transforms.UpscaleComposition | ContentView.swift:294-301 | Upscale's video composition: render size (width, height) and the scale by width / natural width, height / natural height; its meaning is `UpscaleFillsTheFrame`. |
| Transforms.UpscaleFillsTheFrame | ContentView.swift:295-300 | Upscale renders at (width, height); its scale maps the natural-size corner to (width, height), and a point lies in the natural frame exactly when its image lies in the render frame. |
| Transforms.RotateComposition | ContentView.swift:339-346 | Rotate's video composition: the natural render size and the rotation by the angle's cosine and sine; its meaning is `RotateIsRigid`. |
| Transforms.RotateIsRigid | ContentView.swift:340-345 | Rotate keeps the natural size as its render size, fixes the origin and preserves distance from it. |
| Transforms.FlipTransformOf | ContentView.swift:391-393 | The flip transform maps every point as the mirror does: (w−x, y) for horizontal, (x, h−y) for vertical, (w−x, h−y) for both. |
| Transforms.FlipTransform | ContentView.swift:391-393 | Building `var t` from the identity, with scaledBy then translatedBy per requested axis, yields exactly `FlipTransformOf`. |
| Transforms.MirrorXStep | ContentView.swift:392 | The horizontal step applied to t mirrors across x = w/2 before t. |
| Transforms.MirrorYStep | ContentView.swift:393 | The vertical step applied to t mirrors across y = h/2 before t. |
| Transforms.FlipComposition | ContentView.swift:385-394 | Flip's video composition: the natural render size and the transform built by lines 391-393; its meaning is `FlipIsAnInvolutionOfTheFrame`. |
| Transforms.FlipIsAnInvolutionOfTheFrame | ContentView.swift:386-393 | Flip keeps the natural size as render size and maps a point into the frame exactly when the point is in the frame. |
| Transforms.FlipTwiceIsIdentity | ContentView.swift:391-393 | Applying the same flip twice is the identity transform. |
| Transforms.NoFlipIsIdentity | ContentView.swift:391-393 | With neither axis requested, the transform stays the identity. |
| Transforms.CanvasComposition | ContentView.swift:2006-2015 | ChangeCanvas's video composition: render size (W, H) and the translation by ((W−w)/2, (H−h)/2); its meaning is `CanvasCentres`. |
| Transforms.CanvasCentres | ContentView.swift:2007-2014 | ChangeCanvas renders at (W, H) and its translation sends the centre of the source frame to the centre of the canvas, shifting every point by ((W−w)/2, (H−h)/2). |
| AudioMix.FadeInShape | ContentView.swift:435 | The fade-in covers [0, fadeIn), starts silent, ends at full volume and never gets quieter. |
| AudioMix.FadeInRamp | ContentView.swift:435 | The fade-in ramp from volume 0 to 1 over [0, fadeIn); its meaning is `FadeInShape`. |
| AudioMix.FadeOutShape | ContentView.swift:436 | The fade-out starts at duration − fadeOut at full volume, lasts fadeOut, ends exactly at the duration in silence and never gets louder. |
| AudioMix.FadeOutRamp | ContentView.swift:436 | The fade-out ramp from 1 to 0 over [duration − fadeOut, duration); its meaning is `FadeOutShape`. |
| AudioMix.FadeRampsDisjointIff | ContentView.swift:435-436 | FadeAudio sets the fade-in ramp then the fade-out ramp; they do not overlap if and only if fadeIn + fadeOut fits in the duration. Overlapping ramps are not clamped. |
| AudioMix.FadeMix | ContentView.swift:434-437 | FadeAudio's input parameters: the fade-in ramp, then the fade-out ramp, on one track. |
| AudioMix.VolumeMixSingleLevel | ContentView.swift:478 | Volume sets a single level, the requested one, at time zero. |
| AudioMix.VolumeMix | ContentView.swift:477-479 | Volume's input parameters: `setVolume(volume, at: .zero)`; its meaning is `VolumeMixSingleLevel`. |
| Export.ExtensionInjective | ContentView.swift:552-572 | Distinct file types have distinct extensions. |
| Export.Extension | ContentView.swift:552-572 | The extension ExportFormat pairs with each file type. |
| Export.FormatTable | ContentView.swift:552-572 | Exactly "mp4", "mov", "m4a" and "wav" have a row; a row's extension is the format name and the extension of its file type. |
| Export.FormatPresets | ContentView.swift:552-568 | mp4 and mov export at highest quality, m4a with the AppleM4A preset, wav as passthrough, each to its own file type. |
| Export.Completion | ContentView.swift:133-140 | Success, with the output file typed as the job says, if and only if the status is `.completed`; otherwise the session's error, or the feature's fallback error when there is none. |
| Runs.ClipsOf | ContentView.swift:157-160 | One clip per listed asset, in order, with the file's duration and whether it has the required track. |
| Runs.RunTrim | ContentView.swift:115-141 | Code 1 exactly when start or duration is missing or mistyped; code 2 exactly when no session can be created; otherwise an export of [start, start + duration) as `_trim.mov`, typed video, fallback code 3. Of time range, video composition, audio mix and metadata, the export sets only those named here. |
| Runs.RunAudioTrim | ContentView.swift:1510-1536 | As Trim, for the audio: [start, start + duration) as `_audiotrim.m4a` with the AppleM4A preset, typed audio. Of time range, video composition, audio mix and metadata, the export sets only those named here. |
| Runs.RunConcat | ContentView.swift:152-182 | Code 1 exactly when `assets` is missing; code 2 exactly when no session; otherwise the tracks of `Concatenate` over the video tracks of `[asset] + others`, exported as `_concat.mov`. Of time range, video composition, audio mix and metadata, the export sets only those named here. |
| Runs.RunMergeAudio | ContentView.swift:1251-1281 | As Concat over the audio tracks, exported as `_mergeaudio.m4a`, typed audio. Of time range, video composition, audio mix and metadata, the export sets only those named here. |
| Runs.RunCrop | ContentView.swift:193-230 | Code 1 exactly when x, y, w or h is missing or not a CGFloat; code 2 exactly when there is no video track or no session; otherwise exactly `CropComposition` of the file (render size (w, h), instruction over the whole duration, translation sending (x, y) to the origin), as `_crop.mov`, typed video, fallback code 3. Of time range, video composition, audio mix and metadata, the export sets only those named here. |
| Runs.RunUpscale | ContentView.swift:282-317 | Code 1 exactly when width or height is missing; code 2 exactly when there is no video track or no session; otherwise exactly `UpscaleComposition` (render size (width, height), the natural corner sent to (width, height)), as `_upscale.mov`, fallback code 3. Of time range, video composition, audio mix and metadata, the export sets only those named here. |
| Runs.RunRotate | ContentView.swift:328-362 | Code 1 exactly when the angle is missing; code 2 exactly when there is no video track or no session; otherwise exactly `RotateComposition` with the natural render size and the rotation by the angle's cosine and sine, as `_rot.mov`, fallback code 3. Of time range, video composition, audio mix and metadata, the export sets only those named here. |
| Runs.RunFlip | ContentView.swift:373-410 | Code 1 exactly when either flag is missing; code 2 exactly when there is no video track or no session; otherwise exactly `FlipComposition` with the natural render size and the mirror transform, as `_flip.mov`, fallback code 3. Of time range, video composition, audio mix and metadata, the export sets only those named here. |
| Runs.RunChangeCanvas | ContentView.swift:1994-2030 | Code 1 exactly when width or height is missing; code 2 exactly when there is no video track or no session; otherwise exactly `CanvasComposition` (render size (W, H), the frame centre sent to the canvas centre), as `_canvas.mov`, fallback code 3. Of time range, video composition, audio mix and metadata, the export sets only those named here. |
| Runs.RunSpeed | ContentView.swift:241-271 | Code 1 exactly when factor is missing; code 2 exactly when there is no video track; code 3 exactly when no session; otherwise one track rescaled to duration / factor, as `_speed.mov`, fallback code 4. Of time range, video composition, audio mix and metadata, the export sets only those named here. |
| Runs.RunFadeAudio | ContentView.swift:421-455 | Code 1 exactly when fadeIn or fadeOut is missing; code 2 exactly when there is no audio track; code 3 exactly when no session; otherwise the two ramps of `FadeMix`, as `_fadeaudio.m4a`. Of time range, video composition, audio mix and metadata, the export sets only those named here. |
| Runs.RunVolume | ContentView.swift:466-497 | Codes 1–3 as FadeAudio, on volume; otherwise the single level at zero, as `_volume.m4a`. Of time range, video composition, audio mix and metadata, the export sets only those named here. |
| Runs.RunAudioFadeIn | ContentView.swift:1575-1606 | Codes 1–3 as FadeAudio, on fadeIn; otherwise the fade-in ramp, as `_fadein.m4a`. Of time range, video composition, audio mix and metadata, the export sets only those named here. |
| Runs.RunAudioFadeOut | ContentView.swift:1617-1649 | Codes 1–3 as FadeAudio, on fadeOut; otherwise the fade-out ramp ending at the duration, as `_fadeout.m4a`. Of time range, video composition, audio mix and metadata, the export sets only those named here. |
| Runs.RunExportFormat | ContentView.swift:543-589 | Code 1 exactly when format is missing; code 2 exactly for an unknown format, before any session; code 3 exactly when no session; otherwise the table's preset and file type, as `_export.<ext>`, keeping the asset's type. Of time range, video composition, audio mix and metadata, the export sets only those named here. |
| Runs.RunAddAudio | ContentView.swift:1172-1206 | Code 1 exactly when `audio` is missing; code 2 exactly when no session; otherwise the aligned video and audio tracks, as `_addaudio.mov`. Of time range, video composition, audio mix and metadata, the export sets only those named here. |
| Runs.RunRemoveAudio | ContentView.swift:1217-1240 | Code 1 exactly when no session; otherwise only the video track, as `_removeaudio.mov`, fallback code 2. Of time range, video composition, audio mix and metadata, the export sets only those named here. |
| Runs.RunExtractAudio | ContentView.swift:1292-1311 | Code 1 exactly when no session; otherwise the whole file with the AppleM4A preset, as `_extractaudio.m4a`, typed audio. Of time range, video composition, audio mix and metadata, the export sets only those named here. |
| Runs.RunAudioToWav | ContentView.swift:1322-1340 | Code 1 exactly when no session; otherwise the whole file as passthrough `.wav`, typed audio. Of time range, video composition, audio mix and metadata, the export sets only those named here. |
| Runs.RunSaveMetadata | ContentView.swift:1932-1954 | Code 1 exactly when metadata is missing; code 2 exactly when no session; otherwise the file with the given metadata, as `_meta.m4a` for audio and `_meta.mov` otherwise, keeping the asset's type. Of time range, video composition, audio mix and metadata, the export sets only those named here. |
| Runs.RunRemoveMetadata | ContentView.swift:1965-1983 | Code 1 exactly when no session; otherwise the file with empty metadata, as `_nometa.<ext>`, keeping the asset's type. Of time range, video composition, audio mix and metadata, the export sets only those named here. |
| Runs.RunFrameExport | ContentView.swift:509-532 | Code 1 exactly when time is missing; otherwise the image generator takes over. |
| Runs.RunImageFilter | ContentView.swift:602-632 | An image goes to CoreImage; any other asset fails with code 99 in the filter's domain. |
| Runs.Run | ContentView.swift:8 | `feature.run(on:params:completion:)` up to the export: dispatch on the feature to its own run function (Copying → External, filters → `RunImageFilter`, placeholders → code 99). |
| Runs.RunTiming | ContentView.swift:115-141 | Dispatch of Trim, AudioTrim, Speed and FrameExport to their run functions. |
| Runs.RunComposing | ContentView.swift:152-182 | Dispatch of Concat, MergeAudio, AddAudio and RemoveAudio to their run functions. |
| Runs.RunFraming | ContentView.swift:193-230 | Dispatch of Crop, Upscale, Rotate, Flip and ChangeCanvas to their run functions. |
| Runs.RunMixing | ContentView.swift:421-455 | Dispatch of FadeAudio, Volume, AudioFadeIn and AudioFadeOut to their run functions. |
| Runs.RunConverting | ContentView.swift:543-589 | Dispatch of ExportFormat, ExtractAudio, AudioToWav, SaveMetadata and RemoveMetadata to their run functions. |
| Behaviour.Outcome | ContentView.swift:133-140 | An immediate failure is the Result; a started export succeeds if and only if the status is `.completed`. |
| Behaviour.GuardFailsFirst | ContentView.swift:116-119 | For every feature and every file and session, a missing or mistyped parameter gives code 1 in the feature's domain, and for a feature with parameters code 1 means exactly that. |
| Behaviour.NoParameters | ContentView.swift:602-606 | No guard of a copying, filtering or placeholder feature requires a parameter: its schema is empty, so every parameter dictionary conforms. The filters read only optional parameters, each with a default. |
| Behaviour.TimingGuardFirst | ContentView.swift:116-119 | The guard comes first for Trim, AudioTrim, Speed and FrameExport. |
| Behaviour.ComposingGuardFirst | ContentView.swift:153-156 | The guard comes first for Concat, MergeAudio, AddAudio and RemoveAudio. |
| Behaviour.FramingGuardFirst | ContentView.swift:194-199 | The guard comes first for Crop, Upscale, Rotate, Flip and ChangeCanvas. |
| Behaviour.MixingGuardFirst | ContentView.swift:423-426 | The guard comes first for FadeAudio, Volume, AudioFadeIn and AudioFadeOut. |
| Behaviour.ConvertingGuardFirst | ContentView.swift:544-547 | The guard comes first for ExportFormat, ExtractAudio, AudioToWav, SaveMetadata and RemoveMetadata. |
| Behaviour.StubsAlwaysFail | ContentView.swift:1351-1354 | Every placeholder feature fails with code 99 in its domain, whatever the asset and parameters. |
| Behaviour.ImageFiltersFailOnVideo | ContentView.swift:602-632 | Every image filter fails exactly when the asset is not an image, and then with code 99. |
| Behaviour.RunIsConsistent | ContentView.swift:115-141 | For every feature, errors and fallback errors are in the feature's domain, and the output name ends in the extension of the exported file type. |
| Behaviour.TimingConsistent | ContentView.swift:115-141 | Domains and names fit for the timing features. |
| Behaviour.ComposingConsistent | ContentView.swift:152-182 | Domains and names fit for the composing features. |
| Behaviour.FramingConsistent | ContentView.swift:193-230 | Domains and names fit for the framing features. |
| Behaviour.MixingConsistent | ContentView.swift:421-455 | Domains and names fit for the mixing features. |
| Behaviour.ConvertingConsistent | ContentView.swift:543-589 | Domains and names fit for the converting features, whose names depend on the type. |
| Behaviour.ExportFormatKeepsTheAssetType | ContentView.swift:568-587 | An unknown format fails with code 2 whether or not a session exists; a started export uses the requested name as extension and a completed one keeps the asset's type. |
| Behaviour.ClipsOfUsesLocationsOnly | ContentView.swift:157-160 | The clips of a concatenation depend on the files' locations only. |
| Behaviour.RunIgnoresCanRun | ContentView.swift:191-193 | `run` never consults `canRun(on:)`: apart from the features that pick their output by the asset type, the outcome is the same for every asset type, so Crop runs on an "audio" asset as on a video. |
| Behaviour.ComposingIgnoresType | ContentView.swift:152-156 | The composing features ignore the asset type. |
| Behaviour.ConvertingIgnoresType | ContentView.swift:1292-1294 | ExtractAudio and AudioToWav ignore the asset type. |
| Behaviour.CropExportKeepsExactlyTheRectangle | ContentView.swift:193-230 | For every Crop run that starts an export, a source point lands in the w by h output exactly when it lies in the requested rectangle. |
| Behaviour.UpscaleExportFillsTheFrame | ContentView.swift:282-317 | For every Upscale run that starts an export with a positive size, a point lies in the natural frame exactly when its image lies in the render frame. |
| Behaviour.FlipExportIsAnInvolution | ContentView.swift:373-410 | For every Flip run that starts an export, the exported transform maps the frame onto itself and undoes itself. |
| Behaviour.CanvasExportCentres | ContentView.swift:1994-2030 | For every ChangeCanvas run that starts an export, the frame keeps its size and the margins on opposite sides of the canvas are equal. |

## Left out

- AVFoundation, CoreImage and UIKit calls.
  - What `AVAsset(url:)` reports about a file (duration, first video track with natural size and frame rate, whether there is an audio track) comes from `Env.probe`.
  - Whether `AVAssetExportSession(asset:presetName:)` returns a session comes from `Env.sessionCreated`.
  - The session's final status and error are arguments of `Export.Completion`.
- `exportAsynchronously` and the callback threading: only the status-to-Result mapping is modelled.
- FileManager, `UUID()` and the temporary directory.
  - Output locations are a parameter.
  - A job records only the suffix of its file name.
  - `removeItem` is not modelled.
- DuplicateVideo and DuplicateAudio (`copyItem`), and FrameExport after its guard (the image generator and JPEG encoding), become `Runs.External`.
- The image filters' CoreImage pipeline on images and its error codes 1 to 4 become `Runs.External`. Only the code 99 branch for other assets is modelled.
- Floating point.
  - `CMTime(seconds:preferredTimescale: 600)` rounding is not modelled: times are exact `real` seconds.
  - Double, Float and CGFloat arithmetic is exact `real` arithmetic.
  - `Int32(nominalFrameRate)` truncation toward zero is modelled by `Transforms.TruncateTowardZero`. A rate of zero, or an overflow of Int32, is not modelled.
- Media.NaturalSize and Media.Duration: what `Env.probe` reports is assumed sane. Natural sizes have both sides positive and durations are non-negative. The source assumes neither. Upscale divides by the natural width and height at ContentView.swift:300 without a check, and in Swift a zero side gives an infinite scale. The model does not include that case, and `Transforms.UpscaleFillsTheFrame` and `Runs.RunUpscale` rely on positive sides.
- Trigonometry: Rotate's `CGAffineTransform(rotationAngle:)` uses cosine and sine supplied by `Env`. `Transforms.RotateIsRigid` assumes only cos² + sin² = 1.
- The pixel effects of the filters and of the placeholder features, beyond their code 99 failure.
- The feature classes' `displayName` and `description`: they are display text.
- The `EditingEngine.shared` singleton: the engine is passed to `Registry.RegisterAllFeatures` as an argument.
- `try?` around `insertTimeRange`: a failed insertion is assumed not to happen. The model inserts every clip that has the track.
- Runs.RunSpeed: requires a factor other than zero. The source divides the duration by the factor, and the model does not give a meaning to a zero factor (through `Runs.Callable`, the same requirement applies to `Runs.Run` for Speed).
- The parameter checks the code does not make are not added: crop rectangles, speed factors and fade lengths are not validated. Fade ramps may overlap each other or start before zero.
- `RegisteredIds.FeatureOfId` is a decoding of id strings used only in proofs. It is not an operation of the app, and its contract is stated through `RegisteredIds.FeatureOfIdInvertsId` rather than its own `ensures`.
