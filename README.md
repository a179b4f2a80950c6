# Room dimensions and luminaire layout — a Dafny model

The application photographs a room twice, estimates its width, height and depth
from the homography between the two photos, and then works out how many
luminaires the room needs and where to draw them on a plan. The camera and the
OpenCV image processing it delegates to are foreign code; this project models
what the application computes on its own, all in `src/App.jsx`:

- `Estimation` (`estimation.dfy`): the loop that turns the matcher's
  correspondences into two flat coordinate arrays, the homography-proxy reading
  of the dimensions (three times the magnitudes of H[0], H[4] and H[8]), and the
  abort conditions (fewer than 4 matches, a homography without 9 entries).
- `Lighting` (`lighting.dfy`): the lux table by room type (`"oficina"` 500,
  `"hospital"` 700, anything else 300), the lumens per luminaire (`"led"` 1500,
  anything else 1000) and the count `ceil(area * lux / lumensPerLuminaire)`.
- `Layout` (`layout.dfy`): the grid side `ceil(sqrt(count))` and the nested
  row/column loop with its inner-only `break` that emits the cell centres on a
  1 m = 100 px canvas offset by 50 px.
- `AppComponent` (`app.dfy`): the component's state (photos, dimensions,
  selections, count) as a class whose handlers either leave it alone or replace
  the one field they set, with the invariant that stored dimensions and counts
  are non-negative.
- `Wrappers` (`wrappers.dfy`): `Option` and `Result`.

Arithmetic is exact: `real` for the JavaScript doubles, `int`/`nat` for counts
and indices. `Math.ceil` is the least integer not below its argument, and
`Math.ceil(Math.sqrt(n))` is the least `k` with `k * k >= n`.

The OpenCV stages are inputs. The keypoints of each photo and the matches are
parameters of `CalculateDimensions`, and `findHomography` is a function
parameter applied to the two flattened arrays. A homography that OpenCV could
not estimate is an empty matrix, which is the empty sequence here, so the
source's `!homography` test is covered by the length test.

In the code itself:
- the table keys are `"oficina"` and `"hospital"` (Spanish room names) and `"led"`;
- `calculateDimensions` and `calculateLuminaires` alert and return on missing input; `drawLuminaireLayout` returns silently; in all three the state is unchanged;
- the homography proxy is the only way dimensions are obtained;
- twelve intermediate OpenCV objects are released only on the success path, and four
  (`orb`, `matcher` and the two mask matrices passed to `detectAndCompute`) are never released.

## Model

| member | source | states |
|---|---|---|
| `Estimation.Coordinates` | src/App.jsx:141-148 | the flat array pushed for a list of keypoint indices has two entries per index |
| `Estimation.CoordinatesAt` | src/App.jsx:141-148 | entries 2i and 2i+1 of the flat array are the x and y of the keypoint selected by the i-th index |
| `Estimation.FlattenMatches` | src/App.jsx:138-148 | the loop yields arrays of length twice the number of matches; entries 2i, 2i+1 hold the image-1 keypoint at `queryIdx` (points1) and the image-2 keypoint at `trainIdx` (points2) |
| `Estimation.ProxyDimensions` | src/App.jsx:155-167 | no dimensions unless the homography has exactly 9 entries; otherwise 3·abs(H[0]), 3·abs(H[4]), 3·abs(H[8]), all non-negative |
| `Estimation.ProxyNotProjectivelyInvariant` | src/App.jsx:162-165 | rescaling the homography by c (the same projective transform) rescales every proxy dimension by abs(c) |
| `Estimation.EstimateDimensions` | src/App.jsx:133-167 | fewer than 4 matches fail with InsufficientMatches; with enough matches, failure means the homography was unusable; success exactly when there are ≥ 4 matches and the homography of the flattened points has 9 entries, and then the dimensions are the proxy reading of that homography, all non-negative |
| `Lighting.LuxFor` | src/App.jsx:191-194 | 500 for "oficina", 700 for "hospital", 300 for every other string (no rejection) |
| `Lighting.LumensPerLuminaire` | src/App.jsx:197 | 1500 for "led", 1000 for every other string |
| `Lighting.Ceil` | src/App.jsx:199 | the result is the least integer not below x |
| `Lighting.RequiredCount` | src/App.jsx:190-199 | count·lpl covers the total lumens and (count−1)·lpl does not; count ≥ 0 for non-negative area and 0 for zero area |
| `Lighting.RequiredCountUnique` | src/App.jsx:196-199 | the two flux bounds determine the count uniquely |
| `Lighting.OfficeWithLedExample` | src/App.jsx:190-199 | 4 m × 5 m, "oficina", "led" gives 7 luminaires |
| `Lighting.KitchenFallbackExample` | src/App.jsx:190-199 | 10 m² of "cocina", a room type with no lux value of its own (offered by the selector at src/App.jsx:250), with a non-LED luminaire gives 3 |
| `Layout.CeilSqrt` | src/App.jsx:215 | k·k ≥ n and (k−1)·(k−1) < n, i.e. the grid has enough cells; k = 0 exactly when n = 0 |
| `Layout.CeilSqrtLeast` | src/App.jsx:215 | no smaller side gives enough cells |
| `Layout.SevenLuminairesGrid` | src/App.jsx:215-225 | 7 luminaires use a 3-sided grid; the 7th is in row 2, column 0 |
| `Layout.RowMajorIndex` | src/App.jsx:220-225 | the counter value row·k + col corresponds to row `row`, column `col` |
| `Layout.RowInGrid` | src/App.jsx:215-223 | every luminaire index below count falls in a row of the grid, so no cell outside the grid is used |
| `Layout.CellsDistinct` | src/App.jsx:220-231 | different luminaire indices occupy different cells |
| `Layout.CellCentreInsideRoom` | src/App.jsx:208-225 | a cell's position is 50 + (col + ½)·width·100/k and 50 + (row + ½)·height·100/k, strictly inside the room rectangle when both sides are positive |
| `Layout.RowMajorInsideRoom` | src/App.jsx:208-231 | every position of a row-major layout over a room with positive sides is strictly inside the rectangle drawn at (50, 50) |
| `Layout.PlaceLuminaires` | src/App.jsx:215-232 | despite the inner-only break, exactly `count` positions are emitted, the i-th at the centre of cell (i / k, i % k) |
| `AppComponent.App.constructor` | src/App.jsx:84-90 | all state starts empty: no photos, dimensions or count, empty selections |
| `AppComponent.App.HandleCapture` | src/App.jsx:92-95 | photo number 1 or 2 fills that slot; any other number changes nothing |
| `AppComponent.App.SelectRoomType` | src/App.jsx:246 | the selection replaces the room type |
| `AppComponent.App.SelectLuminaireType` | src/App.jsx:254 | the selection replaces the luminaire type |
| `AppComponent.App.CalculateDimensions` | src/App.jsx:97-167 | without both photos, or when the estimation fails, the dimensions are unchanged; otherwise they become the estimate (3·abs(H[0]), 3·abs(H[4]), 3·abs(H[8]) of the fitted homography); stored dimensions stay non-negative |
| `AppComponent.App.CalculateLuminaires` | src/App.jsx:184-200 | with dimensions absent or either selection empty the count is unchanged; otherwise it becomes the required count, which is non-negative |
| `AppComponent.App.DrawLuminaireLayout` | src/App.jsx:202-233 | nothing is drawn without dimensions or a count; otherwise exactly `count` positions, row-major over the current dimensions |

## Left out

- The `Camera` and `ImageDisplay` components, `getUserMedia`, device enumeration and frame capture: browser I/O and rendering.
- The OpenCV calls: `imread`, `cvtColor`, ORB `detectAndCompute`, the cross-checked `BFMatcher` and RANSAC `findHomography`. Their behaviour is not visible, so keypoints, matches and the homography function are inputs. That the matcher only returns in-range indices is a precondition.
- The asynchronous `Image.onload` boundary: `CalculateDimensions` runs the callback's body directly on the handler's state.
- The `.delete()` calls that release OpenCV buffers. This is foreign memory management. The source skips them on both early returns, so those buffers leak there; `orb`, `matcher` and the two anonymous mask matrices are never released on any path.
- `alert`, `console.log`, the canvas drawing calls (`clearRect`, `strokeRect`, `arc`, `fill`) and the result display. `DrawLuminaireLayout` returns the positions it would draw.
- IEEE-754 doubles: exact `real` arithmetic replaces double rounding and `Math.sqrt`. A negative count cannot arise in the model, because stored dimensions are non-negative; this assumes `findHomography` returns finite entries (a NaN entry would make the source's dimensions and count NaN).
- A fiducial-marker scale strategy: the application has no code for one.
- Cross-check symmetry of the matcher and the accuracy of the RANSAC fit: both live inside OpenCV.
- The files under src/components, which App.jsx does not import: `OpenCVProcessor.jsx` (OpenCV thresholding and contours), `Results.jsx` and `Camera.jsx` (rendering only; `Camera.jsx` holds an `ImageDisplay` component), and `ImageDisplay.jsx` (camera capture with `getUserMedia`; it holds a `Camera` component).
