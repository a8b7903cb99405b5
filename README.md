# DynamicImage: contain-fit image sizing

A Dafny model of the `DynamicImage` React Native component of a swipe-to-match card app.
The component takes an image `source` and an optional container size and does three things:

- **Source classification.** It sorts `source` into one of three accepted shapes, or renders nothing.
  The shapes are an object with truthy `uri`, `width` and `height`, a bare URI string (wrapped as `{uri}`), and a numeric local-asset handle.
- **Intrinsic-size resolution.** An effect gets the intrinsic pixel size of the image.
  A number goes to the platform asset registry and a sized object uses its own fields; both are synchronous.
  Anything else, which in practice is a string, goes to an asynchronous remote size probe.
- **Contain fit.** It scales the intrinsic size `w x h` by `min(W / w, H / h)` to fit the `W x H` container.
  It keeps the result in its `imageSize` state together with the intrinsic size and `updated: true`.

Files:

- `js.dfy` (module `Js`): the JavaScript values the component inspects. It models `typeof` and the truthiness of optional string and number fields.
- `source_normalisation.dfy` (module `SourceNormalisation`): the classification, both as written and corrected (see Findings).
- `contain_fit.dfy` (module `ContainFit`): the resize factor and render size over exact `real` arithmetic.
  It proves that the render size fits the container, keeps the aspect ratio and is tight on one axis.
  It also proves that the factor is the largest scale that fits, and that the result depends only on the aspect ratio.
- `dynamic_image.dfy` (module `DynamicImage`): the size state, the effect's three-way dispatch, and the class `DynamicImageInstance`.
  The class has the `imageSize` field and the methods that overwrite it.

The asset registry (`Image.resolveAssetSource`) is a function parameter from handle to an optional size.
For a handle it does not know it answers `None` (null), and the effect then throws when it destructures that answer.
The remote probe (`Image.getSize`) is split in two.
`RunEffect` returns the probe it starts, as a `PendingProbe` holding the uri and the container its callback captured.
`ProbeSettled` applies the probe's answer later: `Some(size)` for the success callback, `None` for the error callback.

Apart from the null source (see Findings), the model follows the code, even where a reader might expect otherwise:

- Only a string source reaches the remote probe. An object with a `uri` but no dimensions is rejected, not probed.
- A probe answer is not discarded when a newer source has been resolved meanwhile. `LateProbeOverwrites` states this.

One case follows neither: a zero intrinsic size is not guarded in the code, and the model excludes it by a precondition (see Left out).

## Model

| member | source | states |
|---|---|---|
| `Js.TypeOf` | components/ui/DynamicImage.tsx:20-24 | `typeof` is "object" exactly for null and objects, "string" exactly for strings and "number" exactly for numbers |
| `SourceNormalisation.ClassifyAsWritten` | components/ui/DynamicImage.tsx:18-30 | As written, classification throws exactly for a null source; apart from that it rejects exactly the sources that are not a sized object, a string or a number |
| `SourceNormalisation.Normalise` | components/ui/DynamicImage.tsx:18-30 | The corrected classification accepts a source exactly when it is a sized object, a string or a number; an accepted object always carries a `uri` field |
| `SourceNormalisation.NormaliseAgreesExceptNull` | components/ui/DynamicImage.tsx:20-30 | On every non-null source the corrected and the as-written classification give the same acceptance and the same internal source |
| `SourceNormalisation.NullSourceThrows` | components/ui/DynamicImage.tsx:20 | A null source throws as written and is rejected once corrected |
| `SourceNormalisation.RejectedSources` | components/ui/DynamicImage.tsx:20-30 | These are all rejected: an object with only a `uri`, one with `width: 0`, one with `uri: ""`, undefined, booleans and functions |
| `SourceNormalisation.AcceptedSources` | components/ui/DynamicImage.tsx:20-26 | A string `s` (even "") becomes `{uri: s}` with no dimensions; a number (even 0) and a sized object pass through unchanged |
| `ContainFit.FitsContainer` | components/ui/DynamicImage.tsx:39-41 | For w, h > 0 the render size is at most the container on both axes, for any container |
| `ContainFit.KeepsAspect` | components/ui/DynamicImage.tsx:39-41 | The render size keeps the intrinsic aspect ratio: `newWidth * h == newHeight * w` |
| `ContainFit.TightOnOneAxis` | components/ui/DynamicImage.tsx:39-41 | The render size equals the container on at least one axis |
| `ContainFit.LargestFittingScale` | components/ui/DynamicImage.tsx:39 | Every uniform scale under which the image fits the container is at most the resize factor, so the factor is the largest such scale |
| `ContainFit.ZeroContainerCollapses` | components/ui/DynamicImage.tsx:39-41 | With a non-negative container that is 0 on some axis, the factor is 0 and the render size is 0 x 0 |
| `ContainFit.RenderSizeNotNegative` | components/ui/DynamicImage.tsx:39-41 | With a non-negative container and a positive intrinsic size, the render size is non-negative |
| `ContainFit.ScaleInvariant` | components/ui/DynamicImage.tsx:39-41 | Scaling the intrinsic size by any k > 0 leaves the render size unchanged, so it depends only on the aspect ratio |
| `ContainFit.RefitIsIdentity` | components/ui/DynamicImage.tsx:39-41 | Fitting an already fitted size into the same positive container gives the same size again |
| `ContainFit.WorkedExample` | components/ui/DynamicImage.tsx:39-41 | 1200 x 800 in a 300 x 600 container gives factor 0.25 and render size 300 x 200 |
| `DynamicImage.Dispatch` | components/ui/DynamicImage.tsx:52-68 | The registry path is taken exactly for a numeric handle, with that handle; otherwise the descriptor path is taken exactly when width and height are truthy, with those nonzero values; the probe path only for an object, using its own `uri` |
| `DynamicImage.DispatchOfAcceptedSource` | components/ui/DynamicImage.tsx:52-68 | For an accepted source: a number goes to the registry with its own value, a sized object uses its own width and height, and a string goes to the probe with the string as uri |
| `DynamicImage.OnlyStringsProbe` | components/ui/DynamicImage.tsx:56-67 | Among accepted sources, the effect starts a remote probe exactly for strings |
| `DynamicImage.RegistryLookup` | components/ui/DynamicImage.tsx:52-55 | For a handle the registry does not know, the effect throws and the state is unchanged; for a known one it resolves the state to the registry's size |
| `DynamicImage.SizedStateContainFit` | components/ui/DynamicImage.tsx:43-47 | After sizing, the state holds the given intrinsic size and `updated: true`, and its render size fits the container, is tight on one axis and satisfies the state invariant |
| `DynamicImage.SizedStateConsistent` | components/ui/DynamicImage.tsx:43-47 | Every state `set_image_render_size` writes (any nonzero sizes) satisfies the state invariant |
| `DynamicImage.EffectKeepsConsistent` | components/ui/DynamicImage.tsx:50-69 | The effect and a probe's answer both preserve the state invariant: unresolved means placeholder, resolved means the aspect ratio is kept |
| `DynamicImage.EffectIdempotent` | components/ui/DynamicImage.tsx:50-69 | Running the effect again with the same inputs gives the same state; when it resolves synchronously the result does not depend on the earlier state; while a probe is pending or after a throw the state is unchanged |
| `DynamicImage.SettleIdempotent` | components/ui/DynamicImage.tsx:63-67 | The same probe answer applied twice gives the same state; a failed probe leaves the state unchanged |
| `DynamicImage.LateProbeOverwrites` | components/ui/DynamicImage.tsx:63-65 | A successful probe answer replaces whatever state a later synchronous effect wrote, sized to the container captured when the probe started |
| `DynamicImage.ZeroContainerState` | components/ui/DynamicImage.tsx:39-47 | A state resolved against a container that is 0 on an axis has render size 0 x 0 |
| `DynamicImage.DefaultContainerIs512` | components/ui/DynamicImage.tsx:8 | A missing container prop stands for 512 x 512; a supplied one is used as it is |
| `DynamicImage.DynamicImageInstance.constructor` | components/ui/DynamicImage.tsx:10-16 | The initial state is intrinsic 0 x 0, render 512 x 512, `updated` false |
| `DynamicImage.DynamicImageInstance.SetImageRenderSize` | components/ui/DynamicImage.tsx:32-48 | Computes `min(W / w, H / h)` and overwrites the state with the intrinsic size, the scaled size and `updated: true`; the invariant holds afterwards |
| `DynamicImage.DynamicImageInstance.RunEffect` | components/ui/DynamicImage.tsx:50-69 | Resolves the state along the dispatched path; on the remote path it leaves the state unchanged and returns the probe it started; for an unknown asset handle it writes nothing and reports the throw |
| `DynamicImage.DynamicImageInstance.ProbeSettled` | components/ui/DynamicImage.tsx:63-67 | On success the state is sized to the container the callback captured; on error it is unchanged |
| `DynamicImage.DynamicImageInstance.Render` | components/ui/DynamicImage.tsx:18-30 | Renders nothing and changes nothing exactly for a rejected source; otherwise renders the current render size and runs the effect with the supplied or default container, reporting how the effect ended |

## Findings

| source | as written | input that shows it | evidently intended | confidence | as-written member | corrected member |
|---|---|---|---|---|---|---|
| components/ui/DynamicImage.tsx:20 | `typeof source === 'object'` also holds for null, so the test then reads `uri` of null and throws a TypeError during render | `source = null` | null is rejected like every other unrecognised source: log it and render nothing | not executed; high | `SourceNormalisation.ClassifyAsWritten` (shown by `SourceNormalisation.NullSourceThrows`) | `SourceNormalisation.Normalise` |

## Left out

- Rendering: the `<Image>` element, its `resizeMode` and the view tree (components/ui/DynamicImage.tsx:71-86). `Render` returns only the width and height its style would carry.
- Effect scheduling (components/ui/DynamicImage.tsx:50, 69): React's dependency comparison and re-run timing are not modelled. Each `Render` of an accepted source runs the effect once.
  The string path (line 23) and the prop default (line 8) build a fresh object on every render, so the line-69 dependencies change on every render. The effect and its state write then run again after each re-render; the model does not capture that repetition.
- Hook order: the early `return null` (line 29) comes before `useEffect` (line 50). React's bookkeeping of hook calls across renders is not modelled.
  As a result, when one mounted instance switches between an accepted and a rejected source, React throws ("Rendered fewer/more hooks than expected"). `Render` instead renders nothing for the rejected source and leaves the state unchanged.
- Foreign calls: `Image.resolveAssetSource` is the `registry` parameter. `Image.getSize` is the `PendingProbe` plus the answer passed to `ProbeSettled`. Neither is called.
- Unmounting: the model has no unmount, so there is no "update after unmount" case to suppress. The code has no such guard either.
- Diagnostics: `console.log` and `console.error` (lines 28, 37, 42, 51, 58, 66).
- Floating point: sizes are exact `real`s. IEEE-754 rounding, NaN and Infinity are not represented. Number-typed fields holding NaN are not modelled.
- Field types: object fields are modelled with their declared types (`uri` a string, `width` and `height` numbers, or absent). A `width` of another JavaScript type is not modelled.
- Dead code: the commented-out expo-image import, asset resolution and `onLoad` handler (lines 1, 25, 38, 73-81).
- The default container of `set_image_render_size` itself (line 35) is never used, because every call passes the component's container. Only the prop default (line 8) is modelled.
- SetImageRenderSize: requires a nonzero intrinsic width and height. With a zero dimension the code divides by zero and stores Infinity or NaN, which `real` cannot represent.
- RunEffect: requires a size the registry knows for a local asset to be nonzero, for the same reason. An unknown handle is modelled: it throws. The descriptor path always meets the requirement, since truthy numbers are nonzero.
- ProbeSettled: requires a successful probe answer to be nonzero, for the same reason.
- Render: requires a size the registry knows for an accepted numeric source to be nonzero, for the same reason.
- Render: uses the corrected classification `Normalise`, so a null source renders nothing. As written, line 20 throws a TypeError for it (see Findings and `ClassifyAsWritten`).
- A thrown TypeError is an outcome value (`Throws`, `RegistryThrows`). What React does with an error thrown in render or in an effect is not modelled.
- Dispatch: requires an object source to carry a `uri` field. Every classified source does (`Normalise` ensures it), so only sources the component never builds are excluded.
- `SwipeCard` and `MatchScreen` in app/(tabs)/match.tsx, and the detail screen in app/(tabs)/detail.tsx, are not part of this model. No card-stack screen is modelled.
