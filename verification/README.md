# Burned-area classifier, modelled in Dafny

This project models the decision logic of the Sentinel-2 burned-area
application: the block of `main` in `src/burned_area/app.py` that turns the
pre-event and post-event bands B04 (red), B08 (NIR), B11 (SWIR) and the scene
classification layer (SCL) into a one-band 8-bit raster. The codes are
0 (unburned), 1 (burned) and 2 (unreliable).

The model has four modules:

- `Wrappers` (`wrappers.dfy`) holds `Option` and `Result`.
- `Indices` (`indices.dfy`) turns 16-bit digital numbers into reflectance with the gain 10000. It forms the normalized difference used for NDWI2 (B08, B11) and NDVI (B08, B04). It also defines the pre/post change and the strict threshold test. Arithmetic uses exact reals. A zero denominator gives `None`, which stands for NumPy's NaN. Every comparison with `None` is false.
- `Classifier` (`classifier.dfy`) defines the per-pixel `Classify`. It follows the order of the source's writes: start at 0, mark 1 where the burned condition holds, then overwrite with 2 where either SCL code is in {0, 1, 5, 6, 7, 8, 9}. A `Grouping` parameter selects between two forms of the burned condition:
  - `AsWritten`: what the Python expression evaluates to, `(dNDWI2 > t && dNDVI > t && pre_scl == 4) || post_scl == 4`.
  - `Corrected`: `dNDWI2 > t && dNDVI > t && (pre_scl == 4 || post_scl == 4)`.
- `ClassifierProperties` (`properties.dfy`) proves properties of `Classify`. These include the full decision table against a closed-form reference written on digital numbers, mask precedence, the precedence shortcut, strict thresholds and undefined indices.
- `Raster` (`raster.dfy`) works on `array2` rasters. `ClassifyGrid` performs the three passes: a zero fill, then the burned mark, then the unreliable overwrite. It is proved equal to `Classify` at every cell. `BurnedArea` reports rasters of different sizes as `ShapeMismatch`.

The two thresholds are parameters. Their command-line defaults are 0.19 for NDVI and 0.18 for NDWI (`DefaultThresholds`). Reading the rasters and writing the output are left out of the model. The input arrays are parameters, and the output array is the method's result.

## Model

| member | source | states |
|---|---|---|
| Indices.Reflectance | src/burned_area/app.py:145-148 | dividing a 16-bit digital number by the gain gives a non-negative reflectance, which is zero only for a zero digital number |
| Indices.GainCancels | src/burned_area/app.py:145-154 | in exact arithmetic, (a/g - b/g)/(a/g + b/g) equals (a - b)/(a + b), so the gain does not change either index |
| Indices.NormalizedDifference | src/burned_area/app.py:147-154 | an index is undefined (NaN) exactly when both bands are zero, so it is never infinite; when defined it equals the gain-free quotient and lies in [-1, 1] |
| Indices.Delta | src/burned_area/app.py:162 | the post-minus-pre change is defined only when both indices are, and adding it to the pre value gives the post value |
| Classifier.Classify | src/burned_area/app.py:164-174 | every output code is 0, 1 or 2 |
| ClassifierProperties.SpectralChangeClosedForm | src/burned_area/app.py:145-162 | the gain-scaled, NaN-aware test "both changes exceed their thresholds" holds exactly when both closed-form quotients on digital numbers are defined and their changes strictly exceed the thresholds |
| ClassifierProperties.ClassifyCharacterisation | src/burned_area/app.py:162-174 | as written, the output is 2 iff an SCL code is unreliable; it is 1 iff no code is unreliable and either the spectral clause holds with pre_scl = 4 or post_scl = 4; it is 0 otherwise |
| ClassifierProperties.CorrectedCharacterisation | src/burned_area/app.py:162-174 | under the corrected grouping, the output is 2 iff an SCL code is unreliable, and 1 iff the pixel is not masked, the spectral clause holds and either SCL code is 4 |
| ClassifierProperties.MaskTakesPrecedence | src/burned_area/app.py:166-174 | for any bands, thresholds and grouping, the output is 2 exactly when either SCL code is in {0,1,5,6,7,8,9}; the overwrite beats the burned mark |
| ClassifierProperties.PostVegetationShortcut | src/burned_area/app.py:162-166 | as written, a pixel with post_scl = 4 and an unmasked pre_scl is 1 whatever the index changes |
| ClassifierProperties.GroupingsDisagree | src/burned_area/app.py:162 | the two groupings give different codes exactly on unmasked pixels with post_scl = 4 and no spectral change |
| ClassifierProperties.StrictThresholds | src/burned_area/app.py:162 | a change equal to its threshold fails the spectral clause, so such a pixel is not 1 unless the post_scl = 4 shortcut applies |
| ClassifierProperties.UndefinedIndex | src/burned_area/app.py:147-162 | if B08+B11 or B08+B04 is zero in either acquisition, the spectral clause is false. As written, the pixel is then 2 if masked, 1 if post_scl = 4 and 0 otherwise. Under the corrected grouping it is never 1 |
| ClassifierProperties.PrecedenceCounterexample | src/burned_area/app.py:162-166 | two identical vegetation acquisitions have no spectral change and still give 1 as written; the corrected grouping gives 0 |
| ClassifierProperties.CorrectedBurnedNeedsChange | src/burned_area/app.py:162 | under the corrected grouping, a burned pixel always has both index changes above their thresholds |
| ClassifierProperties.VegetationChangeScenario | src/burned_area/app.py:145-174 | a vegetation pixel whose NDVI rises by 0.30 and NDWI2 by 0.25 is 1 with the default thresholds under both groupings, and 2 once pre_scl is 0 |
| Raster.ClassifyGrid | src/burned_area/app.py:164-174 | the zero fill, the burned mark and the unreliable overwrite give a height x width raster; each cell is the per-pixel classification of that cell's eight inputs and is 0, 1 or 2 |
| Raster.BurnedArea | src/burned_area/app.py:135-166 | rasters of different sizes give a shape error, and only then; otherwise the result has the post-event raster's size and equals the per-pixel classification at every cell |

## Findings

| source | as written | input that shows it | evidently intended | confidence | as-written member | corrected member |
|---|---|---|---|---|---|---|
| src/burned_area/app.py:162 | `A & B & (pre_scl == 4) \| (post_scl == 4)` groups as `(A & B & C) \| D`, because `&` binds tighter than `\|` | pre = post = B04 1000, B08 3000, B11 3000, SCL 4, default thresholds: both changes are 0, yet the pixel is 1 | `A & B & (C \| D)`: a burned pixel needs both index changes above threshold | medium, not executed | ClassifierProperties.PrecedenceCounterexample | ClassifierProperties.CorrectedBurnedNeedsChange |

`Classify`, `ClassifyGrid` and `BurnedArea` take the grouping as a parameter. Every property of the grid holds for both groupings. `AsWritten` reproduces the source. `Corrected` is the `A & B & (C | D)` reading; the source does not document which grouping was intended.

A second observation needs no separate row, because the model reproduces it exactly. The changes at app.py:162 are post minus pre, and they are tested against positive thresholds (0.19, 0.18). A fire usually lowers NIR and raises SWIR, so both NDVI and NDWI2 fall. Code 1 therefore marks pixels whose indices rose, as `ClassifierProperties.VegetationChangeScenario` shows. "Burned" is the source's name for code 1, and the model does not claim that code 1 detects burns.

## Left out

- Reading the STAC catalogs, and building and translating the band stacks with GDAL (app.py:82-143). This is file I/O; the rasters are parameters of `BurnedArea`.
- Writing the output GeoTIFF and the result catalog, and naming the output after the item dates (app.py:177-232). This is file I/O and string formatting. The writer helper is not part of this model.
- The command-line interface, the configuration dictionaries, the environment variables and logging (app.py:19-75), and `os.remove` and `shutil.move` (app.py:114, 126, 143, 229-232). These are side effects. Only the two thresholds matter, and they are passed in as reals.
- Indices.NormalizedDifference: uses exact real arithmetic instead of float64 rounding. NaN is the explicit `None`, and comparisons with it are false, as in NumPy.
- ClassifierProperties.StrictThresholds: results at the threshold boundary hold only for the exact change. In float64 a change can round across the threshold. For example, pre B08 = B04 = 100 and post B08 = 119, B04 = 81 give an exact NDVI change of 0.19, but a float64 change slightly above 0.19. The default thresholds 0.19 and 0.18 are likewise exact reals, not their float64 roundings.
- Raster.BurnedArea: NumPy's broadcasting of a size-1 dimension is not modelled. Any mismatch of raster sizes is reported as `ShapeMismatch`, which stands for the error NumPy raises on shapes it cannot combine. The source performs no shape check of its own.
- Thresholds that are NaN or not numbers are not modelled. The source converts them with `float`, and a real parameter cannot be NaN.
- The source releases intermediate arrays early by assigning `None`. This affects memory only; the model computes the same values cell by cell.
