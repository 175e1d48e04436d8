# Materials of a small ray tracer, in Dafny

This project models the material layer of the ray tracer (`include/material.h`):
the abstract `Material` with its two operations, `scatter` and `emitted`, and its
five variants, Lambertian (diffuse), Metal (mirror with fuzz), Dielectric (glass
with total internal reflection and a Schlick–Fresnel choice between reflection and
refraction), DiffuseLight (an emitter that never scatters) and Isotropic (volume
scattering).

- `Material` is a closed datatype with one constructor per class. The classes'
  constructors that only store their argument are the datatype constructors
  (`Lambertian(tex)`, `Dielectric(eta)`, `DiffuseLight(tex)`, `Isotropic(tex)`).
  The ones that do more are functions: `LambertianFromColor`, `IsotropicFromColor`
  and `NewMetal`.
- `scatter` returns a flag and writes two out-parameters. Here it is a function
  that returns all three as a `ScatterOut`. The dispatch `Scatter` also takes the
  out-parameters' values before the call, because `DiffuseLight::scatter` leaves
  them untouched.
- Arithmetic is over `real`. Vectors are real triples, and addition, scaling and
  the dot product are written out (`geometry.dfy`).
- The helpers from headers that are not part of this model are parameters:
  - `normalize`, `reflect`, `refract` and `near_zero` form the `VecOps` record.
  - `Texture::value` for non-solid textures is a `Sampler` function. A solid
    colour is assumed to return its colour everywhere (see "## Left out").
  - The values returned by `randomUnitVec()` and `randomDouble()` during one call
    are the `Draws` record.

  Lemmas that need a fact about one of these helpers take it as a requirement.
  For example, `MetalBelowSurfaceAccepted` requires that `reflect` maps a grazing
  unit vector to itself.
- `sqrt` appears only in the total-internal-reflection test
  `ratio * sqrt(1 - cos^2) > 1`. It is restated without the square root as
  `CannotRefract`, and `CannotRefractMatchesSqrt` proves the two tests agree.
  When `1 - cos^2 < 0`, the square root is NaN and the comparison is false. The
  restated test is false there too.
- `pow(x, 5)` is written `x*x*x*x*x`.
- A `Dielectric` needs `eta > 0` (`WellFormed`). Schlick's formula divides by
  `1 + ratio`, and `1 / eta` divides by `eta`.

A matched index (eta = 1) refracts for every non-negative draw only at normal
incidence (`DielectricMatchedIndexHeadOnRefracts`). At oblique incidence Schlick's
reflectance is positive, so the code reflects on a draw of 0.

## Model

| member | source | states |
|---|---|---|
| Materials.Emitted | include/material.h:18-21 | emission is black for every variant except DiffuseLight, whose emission is exactly its texture's value at (u, v, p) |
| Materials.ScatteringSurfacesDoNotEmit | include/material.h:16-21 | whenever a material's scatter continues the path, the material emits black everywhere, so no current variant both emits and scatters |
| Materials.LambertianFromColor | include/material.h:27 | a Lambertian built from a colour has an albedo that samples to that colour at every (u, v, p) |
| Materials.LambertianDirection | include/material.h:33-39 | the direction is normal + r when that sum is not near zero and the normal itself when it is; given a non-near-zero normal the direction is never near zero |
| Materials.LambertianScatter | include/material.h:29-43 | always scatters; the ray leaves the hit point at the incoming ray's time; the attenuation is the albedo texture at (u, v, p); given a non-near-zero normal the scattered direction is never near zero |
| Materials.LambertianExample | include/material.h:29-43 | a grey Lambertian with normal (0,1,0) and random vector (0,1,0) scatters along (0,2,0) with attenuation (0.5,0.5,0.5) and returns true |
| Materials.NewMetal | include/material.h:52 | the stored fuzz is min(f, 1): never above 1 or above f, and equal to f or 1, so 1.5 gives 1 and 0.3 or any negative f is kept |
| Materials.MetalDirection | include/material.h:55-57 | with fuzz 0 the direction is exactly reflect(normalize(d), n) |
| Materials.MetalDotSplits | include/material.h:57-60 | the dot product the flag tests is the mirror reflection's component along the normal plus fuzz times the random vector's component |
| Materials.MetalScatterAsWritten | include/material.h:53-61 | attenuation is the albedo; the ray leaves the hit point at the incoming time along reflect(normalize(d), n) + fuzz·r; the flag is true iff dot(n, direction) is non-zero, as the double-to-bool return makes it |
| Materials.MetalScatter | include/material.h:59-60 | the same ray and attenuation, with the flag true iff the scattered direction is strictly above the surface, dot(n, direction) > 0 |
| Materials.MetalPolishedIsMirror | include/material.h:55-60 | with fuzz 0 the scattered direction is exactly the ideal reflection; the code as written then returns true iff that reflection is not tangent to the surface (dot != 0), the intended test iff it leaves the surface (dot > 0) |
| Materials.MetalVersionsDifferOnlyBelowSurface | include/material.h:59-60 | the code as written and the intended sign test give the same ray and attenuation, and their flags differ exactly when the direction points below the surface |
| Materials.MetalBelowSurfaceAccepted | include/material.h:59-60 | a grazing ray on a fuzz-1 metal with the draw (0,-1,0) scatters to (1,-1,0), below the surface, and the code as written still returns true |
| Materials.RefractionRatio | include/material.h:77 | the ratio is positive; it is the reciprocal of eta on the front face and eta itself on the back face |
| Materials.CosTheta | include/material.h:81 | cos_theta is at most 1 and at most -dot(unit_dir, n), and equals one of them |
| Materials.CannotRefract | include/material.h:82-84 | total internal reflection is only possible for a positive ratio and off normal incidence (cos² < 1) |
| Materials.CannotRefractMatchesSqrt | include/material.h:82-84 | the square-root-free test is true iff ratio·sin_theta > 1 for the non-negative square root sin_theta of 1 - cos² |
| Materials.NoTotalReflectionWhenRatioAtMostOne | include/material.h:84 | a ratio of at most 1 never triggers the total-internal-reflection test |
| Materials.DielectricEnteringDenserNeverTotallyReflects | include/material.h:77-84 | a front-face hit on a material with eta >= 1 never totally reflects |
| Materials.BaseReflectance | include/material.h:103-104 | r0 = ((1-ri)/(1+ri))² is non-negative and is 0 when ri = 1 |
| Materials.BaseReflectanceBelowOne | include/material.h:103-104 | for ri > 0, r0 < 1 |
| Materials.Pow5Bounds | include/material.h:105 | `pow(x, 5)`, written x·x·x·x·x, is non-negative for x >= 0 and at most x on [0, 1] |
| Materials.Reflectance | include/material.h:101-106 | Schlick's reflectance equals r0 at cos = 1 and 1 at cos = 0 |
| Materials.ReflectanceBounds | include/material.h:101-106 | for ri > 0 and 0 <= cos <= 1, the reflectance lies in [r0, 1] and 0 <= r0 < 1 |
| Materials.ReflectanceAtLeastBase | include/material.h:101-106 | for ri > 0 and every cos <= 1 (every value the fmin yields), the reflectance is at least r0 |
| Materials.ReflectanceBelowOneOffGrazing | include/material.h:101-106 | for ri > 0 and 0 < cos <= 1 the reflectance is strictly below 1 |
| Materials.ReflectanceFallsWithCosine | include/material.h:105 | for ri > 0 the reflectance does not increase as cos increases over [0, 1], so grazing angles reflect more |
| Materials.ChoosesReflection | include/material.h:84-86 | under total internal reflection it reflects for every draw; otherwise it reflects iff the draw is below Schlick's reflectance |
| Materials.DielectricScatter | include/material.h:73-96 | always scatters with attenuation (1,1,1); the ray leaves the hit point at the incoming time; the direction is the reflection or the refraction (with the chosen ratio) of the normalised incoming direction |
| Materials.DielectricDirectionChoice | include/material.h:84-93 | under total internal reflection the direction is the reflection for any draw; otherwise it is the reflection when reflectance > draw and the refraction when reflectance <= draw |
| Materials.DielectricLowDrawReflects | include/material.h:81-89 | a draw below r0 always gives the reflection |
| Materials.DielectricHighDrawRefracts | include/material.h:81-93 | off grazing incidence (cos > 0) and without total internal reflection the reflectance is below 1, and every draw in [reflectance, 1) gives the refraction with the chosen ratio |
| Materials.DielectricMatchedIndexHeadOnRefracts | include/material.h:77-93 | with eta = 1 at normal incidence, every non-negative draw gives the refraction with ratio 1 |
| Materials.DielectricTotalReflectionExample | include/material.h:77-89 | eta = 1.5 hit from inside with cos 0.6 (sin 0.8 > 1/1.5) reflects whatever the draw |
| Materials.DiffuseLightScatter | include/material.h:113-116 | never scatters and leaves both out-parameters as they were |
| Materials.IsotropicFromColor | include/material.h:128 | an Isotropic built from a colour has an albedo that samples to that colour at every (u, v, p) |
| Materials.IsotropicScatter | include/material.h:131-137 | always scatters; the ray leaves the hit point at the incoming time along the random unit vector; the attenuation is the albedo texture at (u, v, p) |
| Materials.IsotropicIgnoresNormal | include/material.h:134 | the result does not depend on the hit's normal or front_face, only on p, u and v |
| Materials.Scatter | include/material.h:16 | dispatch: DiffuseLight returns false and leaves the out-parameters unchanged; every other variant sends the ray from the hit point at the incoming time; Lambertian, Dielectric and Isotropic always scatter; Metal returns true iff dot(n, direction) != 0, as line 60 does; the attenuation is the albedo texture, the metal colour or white; the direction is Lambertian's normal + r (or the normal when that is near zero), Metal's reflect(normalize(d), n) + fuzz·r, Isotropic's random unit vector r, and a Dielectric's whole result is `DielectricScatter` with the scalar draw |
| Materials.ScatterIntended | include/material.h:59-60 | the dispatch with Metal's intended test: same rays and attenuations as Scatter, true iff not a light and (for Metal) the direction is above the surface; the flags differ exactly for a metal scattering below the surface |

## Findings

| source | as written | input that shows it | evidently intended | confidence | as-written member | corrected member |
|---|---|---|---|---|---|---|
| include/material.h:59-60 | `Metal::scatter` returns the dot product through `bool`, so the result is `dot != 0` | fuzz 1, normal (0,1,0), incoming direction (1,0,0), random draw (0,-1,0): direction (1,-1,0), dot -1, returns true | the comment on line 59 says reflections below the surface are rejected: return `dot > 0` | high, not executed | Materials.MetalBelowSurfaceAccepted | Materials.MetalScatter |

The dispatch `Scatter` follows line 60 as it stands, through `MetalScatterAsWritten`.
`ScatterIntended` is the dispatch with the corrected `MetalScatter`.

## Left out

- Floating-point rounding and IEEE behaviour of `fmin`, `sqrt` and `pow`. All arithmetic is over `real`.
- Random number generation. The values drawn during a call are inputs, and the distribution claims are not modelled: cosine weighting for Lambertian and uniform directions for Isotropic. How many values a call draws is not modelled either: Dielectric calls `randomDouble()` only when the total-internal-reflection test fails (the short-circuit `||` on line 86), while the model always takes a scalar and ignores it in that case.
- The bodies of `normalize`, `reflect`, `refract`, `near_zero` and `Texture::value` for non-solid textures. The vector and texture headers are not part of this model, so these are function parameters with no axioms.
- The body of `solid_color::value`. The texture header is not part of this model; the model assumes that a solid colour returns its stored colour for every (u, v, p), and `LambertianFromColor` and `IsotropicFromColor` state their albedo under that assumption.
- `std::shared_ptr` ownership of textures, virtual dispatch and the virtual destructor. A texture is a value, either a solid colour or a handle to an external texture.
- A Dielectric with a non-positive refractive index. The index is positive by the scene's invariant, and the code divides by `1 + ratio` and by `eta`.
- Hit record construction, the integrator loop, image output and thread safety. None of these is in the material layer.
