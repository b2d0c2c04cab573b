# Explicit functions playground: input resolution, selective resampling and projection

This project models the core of a playground that animates parametric curves
from numeric inputs. It has two parts.

- `explicit_functions.dfy`, module `ExplicitFunctions`, models
  `src/App/ExplicitFunctions/ExplicitFunctions.js`. It covers:
  - the resolvers that turn a raw input into a number in each parameter's domain;
  - the dispatch from a selected curve family to a curve (`resolveFunction`);
  - the `Component` class that holds the raw inputs. Its `Render` method caches
    the sampled value range `Y` behind a dependency key and the counter range
    `X` behind `n`. It then runs the three effects that push `from`, `to` and
    the ranges into the two playback engines, each only when its own
    dependency changed.
- `vectors.dfy`, module `Vectors`, models `dot`, `scalar` and `project` from
  `src/App/Vectors.js` as functions over `seq<real>`. It proves the laws of
  orthogonal projection about them.
- `wrappers.dfy`, module `Wrappers`, holds `Option` and `Result`. A raw input
  is an `Option<real>`: `None` is a value that does not parse as a number.

The playback library's range sampler, `getRange` applied to a curve, is not
visible. It appears as the function `sample`, which the component receives at
construction. The dependency slot `cond || x` of the key is the datatype `Dep`:
the sentinel `True`, or a number. The identity of the memoised array `Y`, which
the range effect depends on, is the generation counter `yGen`. It grows exactly
when `Y` is recomputed. Every call into the engines is appended to the log
`calls`.

## Model

| member | source | states |
|---|---|---|
| ExplicitFunctions.ToNum | src/App/ExplicitFunctions/ExplicitFunctions.js:40-42 | an unparseable value yields the default, a parsed one yields itself |
| ExplicitFunctions.ToPositive | src/App/ExplicitFunctions/ExplicitFunctions.js:44-46 | the result is non-negative and is the number or its negation |
| ExplicitFunctions.ToNatural | src/App/ExplicitFunctions/ExplicitFunctions.js:48-50 | the result is the whole part of the magnitude: a natural `k` with `k <= abs(v) < k + 1` |
| ExplicitFunctions.ToSafeNatural | src/App/ExplicitFunctions/ExplicitFunctions.js:52-55 | the result is `min(toNatural(v), max)`, so it lies in `[0, max]` for a non-negative cap |
| ExplicitFunctions.ToSafeNaturalOfNatural | src/App/ExplicitFunctions/ExplicitFunctions.js:52-55 | a natural number up to the cap resolves to itself |
| ExplicitFunctions.ToSafeNaturalIdempotent | src/App/ExplicitFunctions/ExplicitFunctions.js:52-55 | resolving an already resolved count changes nothing |
| ExplicitFunctions.ResolveBase | src/App/ExplicitFunctions/ExplicitFunctions.js:57-60 | the base is positive and never 1; a magnitude of 0 or 1 becomes e, any other magnitude is kept |
| ExplicitFunctions.ResolveExponent | src/App/ExplicitFunctions/ExplicitFunctions.js:62-65 | the exponent is at least 1; it is the magnitude when that is at least 1, and 1 otherwise |
| ExplicitFunctions.ResolvedX | src/App/ExplicitFunctions/ExplicitFunctions.js:67-70 | a control abscissa lies in `[0, 1]`; it is the magnitude when that is at most 1, and 1 otherwise |
| ExplicitFunctions.ResolvedY | src/App/ExplicitFunctions/ExplicitFunctions.js:72-74 | a control ordinate is passed through unrestricted: the parsed number, or 0 |
| ExplicitFunctions.ResolveParamInDomain | src/App/ExplicitFunctions/ExplicitFunctions.js:99-104 | every raw value of every parameter resolves into that parameter's domain |
| ExplicitFunctions.ResolveParamFixesDomain | src/App/ExplicitFunctions/ExplicitFunctions.js:99-104 | a value already in its domain resolves to itself, so resolving twice is resolving once |
| ExplicitFunctions.Inputs | src/App/ExplicitFunctions/ExplicitFunctions.js:189-228 | each parameter's input is shown exactly for the families the page guards it with: x1 and y1 for both Bezier families, x2 and y2 for the cubic one, base for the exponential, exponent for the monomial, and the six oscillator inputs for the harmonic family |
| ExplicitFunctions.Resolve | src/App/ExplicitFunctions/ExplicitFunctions.js:99-118 | each resolved parameter is its own resolver applied to its own raw value |
| ExplicitFunctions.ResolveWith | src/App/ExplicitFunctions/ExplicitFunctions.js:92-118 | editing one raw value changes exactly that resolved value |
| ExplicitFunctions.ResolveFunction | src/App/ExplicitFunctions/ExplicitFunctions.js:21-38 | the curve built is of the selected family |
| ExplicitFunctions.ResolveFunctionEqualIff | src/App/ExplicitFunctions/ExplicitFunctions.js:21-34 | two curves are equal if and only if the families are equal and every parameter the family takes is equal |
| ExplicitFunctions.KeyCurveOfYDeps | src/App/ExplicitFunctions/ExplicitFunctions.js:121-137 | the dependency key of Y determines the curve that Y samples |
| ExplicitFunctions.Or | src/App/ExplicitFunctions/ExplicitFunctions.js:125-136 | the slot `cond || x` is the sentinel `true` exactly when the guard holds, and the number otherwise |
| ExplicitFunctions.YDeps | src/App/ExplicitFunctions/ExplicitFunctions.js:122-137 | the dependency array holds `n` and the family, and each parameter's slot is the sentinel exactly when the page shows no input for that parameter under the family, and the resolved value when it does |
| ExplicitFunctions.YDepsSlot | src/App/ExplicitFunctions/ExplicitFunctions.js:125-136 | each slot of the key is the sentinel exactly for the parameters the page does not show for the family |
| ExplicitFunctions.YDepsEqualIff | src/App/ExplicitFunctions/ExplicitFunctions.js:121-137 | two keys are equal if and only if `n`, the family and every parameter shown for that family are equal |
| ExplicitFunctions.MemoKeyIdentifiesCurve | src/App/ExplicitFunctions/ExplicitFunctions.js:121-137 | two keys are equal if and only if `n` and the resolved curve are equal, so Y is never stale and never recomputed needlessly |
| ExplicitFunctions.IrrelevantEditKeepsKey | src/App/ExplicitFunctions/ExplicitFunctions.js:125-136 | editing a parameter the selected family does not use leaves the key unchanged |
| ExplicitFunctions.RelevantEditChangesKey | src/App/ExplicitFunctions/ExplicitFunctions.js:125-136 | editing a parameter the selected family uses changes the key if and only if its resolved value changes |
| ExplicitFunctions.RawEditKey | src/App/ExplicitFunctions/ExplicitFunctions.js:99-137 | typing a raw value into a parameter's input keeps the key when the family does not use that parameter, and otherwise changes it if and only if the resolved value changes |
| ExplicitFunctions.Component.N | src/App/ExplicitFunctions/ExplicitFunctions.js:87 | the resolved sample count lies in `[0, 1000]` |
| ExplicitFunctions.Component.From | src/App/ExplicitFunctions/ExplicitFunctions.js:88 | the resolved `from` lies in `[0, 1000]` |
| ExplicitFunctions.Component.To | src/App/ExplicitFunctions/ExplicitFunctions.js:89 | the resolved `to` lies in `[0, 1000]` |
| ExplicitFunctions.Component.constructor | src/App/ExplicitFunctions/ExplicitFunctions.js:79-118 | starts from the initial inputs (n 120, from 0, to 120, linear, x1 1, y1 0, x2 0, y2 1, base e, exponent 2, d0 1, v0 0, hp 6); after the mount effects the engines mirror them, and the log holds the `from`, `to` and range pushes |
| ExplicitFunctions.Component.MemoY | src/App/ExplicitFunctions/ExplicitFunctions.js:121-137 | Y is resampled if and only if its key changed; afterwards Y is the sample of the current curve, and otherwise Y and its identity are kept |
| ExplicitFunctions.Component.MemoX | src/App/ExplicitFunctions/ExplicitFunctions.js:140 | X is resampled if and only if `n` changed; afterwards X is the linear sample of `n` |
| ExplicitFunctions.Component.FromEffect | src/App/ExplicitFunctions/ExplicitFunctions.js:145-148 | both engines get the resolved `from`, and the two calls are made only when `from` changed; their other fields are kept |
| ExplicitFunctions.Component.ToEffect | src/App/ExplicitFunctions/ExplicitFunctions.js:150-153 | both engines get the resolved `to`, and the two calls are made only when `to` changed; their other fields are kept |
| ExplicitFunctions.Component.RangeEffect | src/App/ExplicitFunctions/ExplicitFunctions.js:155-158 | the engines get X and Y, and the two calls are made only when Y is a new array; their other fields are kept |
| ExplicitFunctions.Component.Memoise | src/App/ExplicitFunctions/ExplicitFunctions.js:121-140 | both caches are current afterwards; X is resampled only together with Y |
| ExplicitFunctions.Component.RunEffects | src/App/ExplicitFunctions/ExplicitFunctions.js:145-158 | the three effects in declaration order: both engines end as `(from, to, range)` of the current inputs, and the log grows by exactly the pushes whose dependency changed |
| ExplicitFunctions.Component.Render | src/App/ExplicitFunctions/ExplicitFunctions.js:121-158 | keeps the invariant; resampling happens if and only if a key changed, X only with Y; a resampled Y is a new array (its identity changes), and without resampling Y, X and Y's identity are kept; afterwards the engines mirror the inputs and the log grows by the pushes whose dependency changed |
| ExplicitFunctions.Component.SetN | src/App/ExplicitFunctions/ExplicitFunctions.js:166-168 | editing `n` writes the same raw value into `to`, so the resolved `to` equals the resolved `n` |
| ExplicitFunctions.Component.SetFrom | src/App/ExplicitFunctions/ExplicitFunctions.js:172 | editing `from` never changes the key of Y |
| ExplicitFunctions.Component.SetTo | src/App/ExplicitFunctions/ExplicitFunctions.js:175 | editing `to` never changes the key of Y |
| ExplicitFunctions.Component.SetFunction | src/App/ExplicitFunctions/ExplicitFunctions.js:179 | selecting a different family always changes the key of Y |
| ExplicitFunctions.Component.SetParam | src/App/ExplicitFunctions/ExplicitFunctions.js:189-228 | editing a parameter replaces exactly that raw value; the key is unchanged when the family does not use it, and changes if and only if its resolved value changes when it does |
| ExplicitFunctions.EditParam | src/App/ExplicitFunctions/ExplicitFunctions.js:121-158 | after a parameter edit and a render, only that raw value has changed among the inputs; Y is resampled if and only if the parameter belongs to the selected family and its resolved value changed, and then Y is a new array and the log grows by exactly the two range pushes; otherwise nothing is recomputed or pushed |
| ExplicitFunctions.EditN | src/App/ExplicitFunctions/ExplicitFunctions.js:166-168 | after an edit of `n` and a render, the raw `n` and `to` are the typed value and the other inputs are kept; the resolved `to` equals the resolved `n`, and so does both engines' `to`; `from` is not pushed, the two `to` calls are made only when the resolved `to` changed, and the two range calls only when Y was resampled |
| Vectors.SumConcat | src/App/Vectors.js:21 | the left-to-right `reduce` sum of a concatenation is the sum of the sums of its parts |
| Vectors.SumNonNegative | src/App/Vectors.js:21 | a sum of non-negative terms is non-negative, and it is 0 if and only if every term is 0 |
| Vectors.Dot | src/App/Vectors.js:19-22 | succeeds if and only if the lengths agree and the vectors are non-empty; different lengths throw, and two empty vectors make `reduce` throw |
| Vectors.DotSymmetric | src/App/Vectors.js:21 | the dot product is symmetric, in its failures too |
| Vectors.DotSelf | src/App/Vectors.js:21 | `B . B` is non-negative, and it is 0 if and only if B is the zero vector |
| Vectors.DotLinear | src/App/Vectors.js:21 | the dot product is linear in its first argument |
| Vectors.DotScalar | src/App/Vectors.js:21-26 | scaling the first vector by `a` scales the dot product by `a` |
| Vectors.Scalar | src/App/Vectors.js:24-26 | the result has A's length, and coordinate `i` is `A[i] * a` |
| Vectors.Project | src/App/Vectors.js:29-32 | fails as `dot` does, yields not-a-number if and only if B is the zero vector, succeeds for non-empty vectors of one length with a non-zero B, and then yields a multiple of B of B's length |
| Vectors.ProjectFixesMultiples | src/App/Vectors.js:29-32 | a multiple of a non-zero B is its own projection onto B |
| Vectors.ProjectIdempotent | src/App/Vectors.js:29-32 | projecting the projection again changes nothing |
| Vectors.ProjectResidualOrthogonal | src/App/Vectors.js:29-32 | the residual `A - project(A, B)` is orthogonal to B |
| Vectors.ProjectCharacterized | src/App/Vectors.js:29-32 | any multiple of a non-zero B whose residual is orthogonal to B is the projection |
| Vectors.ProjectOntoSelf | src/App/Vectors.js:29-32 | a non-zero vector projects onto itself |

## Left out

- Rendering: the JSX markup, the family selector and the `View` figure are not modelled. The input handlers are the `Set…` methods of `Component`.
- The playback library: `getRange`, the curve evaluators and the cursor of `useFrames` are not visible. A sampled range is the value of the function `sample` given to the constructor. Nothing is stated about its length or values.
- Library constants: `DAMPING`, `STIFFNESS` and `MASS` come from the playback library. They are constructor parameters.
- The restart callbacks: the `onEnd` callbacks (lines 142-143) return `Date.now()` tokens, which need not increase. The wall clock is not modelled.
- The engine configuration argument: `useFrames` receives `{range, from, to, onEnd}` on every render (lines 142-143). The model takes only the first of these calls, as the engines' starting value. Every later change to an engine goes through the three effects.
- String parsing: `isNaN` and `Number` coercion, such as `""` becoming 0 and `"Infinity"` being accepted, are abstracted. A raw input either parses to a real or is `None`.
- Floating point: numbers are exact reals. The projection laws hold exactly here, and only approximately with doubles.
- `E` is the decimal 2.718281828459045, the shortest decimal that rounds to the double `Math.exp(1)`; it is not that double's exact value.
- Signed zero: React compares dependencies with `Object.is`, so typing `-0` after `0` into `y1`, `y2` or an oscillator input changes the key in the program and resamples Y. Over reals the two are one number, and the model keeps the key.
- Vectors.Project: the NaN vector that JavaScript produces for a zero B is the error `NotANumber`, not a vector of NaN coordinates.
- `resolveFunction`'s `default: throw` branch is unreachable because `Family` is a closed datatype.
- `getResolutions` and `getResolutions2` in `Vectors.js` are not part of this model. They rely on `atan2`, `cos`, `sin` and `sqrt`.
- The `Vectors` component body is not part of this model. It holds screen-coordinate arithmetic.
- The other files of the repository (`IntegratedHarmonic.js`, `DynamicSimulator.js`, `CompareHarmonic.js`, the views) are not part of this model.
- React scheduling: a render and its effects are one `Render` call. Batching and concurrent renders are not modelled.
- `useMemo` is modelled as a single-entry cache compared with the previous key, which is how it behaves. So switching back to a family sampled earlier resamples it.
- Bounds: `from` and `to` are only capped at 1000 (lines 87-89). They are not clamped to `[0, n]` when `n` changes, and only the `n` input also writes `to` (lines 166-168). The model states exactly this.
- Oscillator parameters only go through `toNum` (lines 113-118), so negative values pass through. The model resolves them the same way.
