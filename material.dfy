/** The material layer of the ray tracer: the five material variants, how a
    ray that hit a surface scatters off each, and the light each emits.

    `scatter` writes its results into two out-parameters and returns a flag;
    here it is a function returning all three as a `ScatterOut`. The random
    draws a call consumes (`randomUnitVec()`, `randomDouble()`) are inputs,
    collected in `Draws`. */
module Materials {
  import opened Geometry
  import opened Textures

  datatype Material =
    | Lambertian(albedo: Texture)
    | Metal(albedoColor: Color, fuzz: real)
    | Dielectric(eta: real)
    | DiffuseLight(emit: Texture)
    | Isotropic(albedo: Texture)

  /** The values the random source hands out during one `scatter` call. */
  datatype Draws = Draws(unitVec: Vec3, scalar: real)

  /** The flag `scatter` returns and the values of its two out-parameters
      after the call. */
  datatype ScatterOut = ScatterOut(scatters: bool, attenuation: Color, scattered: Ray)

  /** A refractive index is positive; nothing else is assumed of a material. */
  predicate WellFormed(m: Material) {
    m.Dielectric? ==> m.eta > 0.0
  }

  // ---------------------------------------------------------------------
  // Constructors that do more than store their arguments
  // ---------------------------------------------------------------------

  /** `Lambertian(const Color&)`: the albedo is a solid colour. */
  function LambertianFromColor(col: Color): (m: Material)
    ensures m.Lambertian?
    ensures forall sample: Sampler, u: real, v: real, p: Point3 :: Value(sample, m.albedo, u, v, p) == col
  {
    Lambertian(SolidColor(col))
  }

  /** `Isotropic(Color)`: the albedo is a solid colour. */
  function IsotropicFromColor(col: Color): (m: Material)
    ensures m.Isotropic?
    ensures forall sample: Sampler, u: real, v: real, p: Point3 :: Value(sample, m.albedo, u, v, p) == col
  {
    Isotropic(SolidColor(col))
  }

  /** `Metal(col, f)`: the fuzz is clamped from above at 1, not from below. */
  function NewMetal(albedo: Color, f: real): (m: Material)
    ensures m.Metal? && m.albedoColor == albedo
    ensures m.fuzz <= 1.0 && m.fuzz <= f
    ensures m.fuzz == f || m.fuzz == 1.0
  {
    Metal(albedo, if f < 1.0 then f else 1.0)
  }

  // ---------------------------------------------------------------------
  // Emission
  // ---------------------------------------------------------------------

  /** `emitted`: black by default; a diffuse light samples its texture. */
  function Emitted(sample: Sampler, m: Material, u: real, v: real, p: Point3): (c: Color)
    ensures m.DiffuseLight? ==> c == Value(sample, m.emit, u, v, p)
    ensures !m.DiffuseLight? ==> c == Black
  {
    match m
    case DiffuseLight(emit) => Value(sample, emit, u, v, p)
    case _ => Black
  }

  // ---------------------------------------------------------------------
  // Lambertian
  // ---------------------------------------------------------------------

  /** Normal plus a random unit vector, or the normal itself when that sum
      is degenerate. */
  function LambertianDirection(ops: VecOps, normal: Vec3, r: Vec3): (d: Vec3)
    ensures !ops.nearZero(normal) ==> !ops.nearZero(d)
    ensures d == normal || d == Add(normal, r)
    ensures !ops.nearZero(Add(normal, r)) ==> d == Add(normal, r)
    ensures ops.nearZero(Add(normal, r)) ==> d == normal
  {
    var candidate := Add(normal, r);
    if ops.nearZero(candidate) then normal else candidate
  }

  function LambertianScatter(ops: VecOps, sample: Sampler, albedo: Texture, rayIn: Ray, info: HitInfo, r: Vec3): (out: ScatterOut)
    ensures out.scatters
    ensures out.scattered.origin == info.p && out.scattered.time == rayIn.time
    ensures out.scattered.direction == LambertianDirection(ops, info.normal, r)
    ensures !ops.nearZero(info.normal) ==> !ops.nearZero(out.scattered.direction)
    ensures out.attenuation == Value(sample, albedo, info.u, info.v, info.p)
  {
    ScatterOut(true, Value(sample, albedo, info.u, info.v, info.p),
               Ray(info.p, LambertianDirection(ops, info.normal, r), rayIn.time))
  }

  // ---------------------------------------------------------------------
  // Metal
  // ---------------------------------------------------------------------

  /** The ideal reflection of the normalised incoming direction, perturbed
      by `fuzz` times a random unit vector. */
  function MetalDirection(ops: VecOps, rayIn: Ray, normal: Vec3, fuzz: real, r: Vec3): (d: Vec3)
    ensures fuzz == 0.0 ==> d == ops.reflect(ops.normalize(rayIn.direction), normal)
  {
    Add(ops.reflect(ops.normalize(rayIn.direction), normal), Scale(fuzz, r))
  }

  /** The quantity the flag tests splits into the mirror reflection's
      component along the normal plus fuzz times the draw's component. */
  lemma MetalDotSplits(ops: VecOps, rayIn: Ray, normal: Vec3, fuzz: real, r: Vec3)
    ensures var mirror := ops.reflect(ops.normalize(rayIn.direction), normal);
            Dot(normal, MetalDirection(ops, rayIn, normal, fuzz, r)) == Dot(normal, mirror) + fuzz * Dot(normal, r)
  {
  }

  /** `Metal::scatter` as the code stands: the dot product is returned
      through a `bool`, so any non-zero value, of either sign, is `true`. */
  function MetalScatterAsWritten(ops: VecOps, albedo: Color, fuzz: real, rayIn: Ray, info: HitInfo, r: Vec3): (out: ScatterOut)
    ensures out.attenuation == albedo
    ensures out.scattered == Ray(info.p, MetalDirection(ops, rayIn, info.normal, fuzz, r), rayIn.time)
    ensures out.scatters <==> Dot(info.normal, out.scattered.direction) != 0.0
  {
    var scattered := Ray(info.p, MetalDirection(ops, rayIn, info.normal, fuzz, r), rayIn.time);
    ScatterOut(Dot(info.normal, scattered.direction) != 0.0, albedo, scattered)
  }

  /** `Metal::scatter` with the sign test its comment describes: a reflection
      that ends up below the surface is absorbed. */
  function MetalScatter(ops: VecOps, albedo: Color, fuzz: real, rayIn: Ray, info: HitInfo, r: Vec3): (out: ScatterOut)
    ensures out.attenuation == albedo
    ensures out.scattered == Ray(info.p, MetalDirection(ops, rayIn, info.normal, fuzz, r), rayIn.time)
    ensures out.scatters <==> Dot(info.normal, out.scattered.direction) > 0.0
  {
    var scattered := Ray(info.p, MetalDirection(ops, rayIn, info.normal, fuzz, r), rayIn.time);
    ScatterOut(Dot(info.normal, scattered.direction) > 0.0, albedo, scattered)
  }

  /** With no fuzz a metal is a perfect mirror. The code as written then
      continues the path unless the mirror reflection is tangent to the
      surface; the corrected flag is exactly "the mirror reflection leaves
      the surface". */
  lemma MetalPolishedIsMirror(ops: VecOps, albedo: Color, rayIn: Ray, info: HitInfo, r: Vec3)
    ensures var written := MetalScatterAsWritten(ops, albedo, 0.0, rayIn, info, r);
            var mirror := ops.reflect(ops.normalize(rayIn.direction), info.normal);
            written.scattered.direction == mirror && (written.scatters <==> Dot(info.normal, mirror) != 0.0)
    ensures var intended := MetalScatter(ops, albedo, 0.0, rayIn, info, r);
            var mirror := ops.reflect(ops.normalize(rayIn.direction), info.normal);
            intended.scattered.direction == mirror && (intended.scatters <==> Dot(info.normal, mirror) > 0.0)
  {
  }

  /** The two versions agree on the ray and the attenuation, and on the flag
      everywhere except below the surface, where only the code as written
      lets the ray continue. */
  lemma MetalVersionsDifferOnlyBelowSurface(ops: VecOps, albedo: Color, fuzz: real, rayIn: Ray, info: HitInfo, r: Vec3)
    ensures var written := MetalScatterAsWritten(ops, albedo, fuzz, rayIn, info, r);
            var intended := MetalScatter(ops, albedo, fuzz, rayIn, info, r);
            && written.attenuation == intended.attenuation
            && written.scattered == intended.scattered
            && (written.scatters != intended.scatters <==> Dot(info.normal, written.scattered.direction) < 0.0)
  {
  }

  /** A concrete grazing hit that the code as written lets through: a
      fully fuzzy metal, a ray along the surface, and a random draw pointing
      into the surface give a scattered direction below the surface, yet the
      returned flag is `true`. The two requirements hold of the real
      `normalize` and `reflect` on these unit vectors. */
  lemma MetalBelowSurfaceAccepted(ops: VecOps, albedo: Color, p: Point3, time: real)
    requires ops.normalize(Vec3(1.0, 0.0, 0.0)) == Vec3(1.0, 0.0, 0.0)
    requires ops.reflect(Vec3(1.0, 0.0, 0.0), Vec3(0.0, 1.0, 0.0)) == Vec3(1.0, 0.0, 0.0)
    ensures var info := HitInfo(p, Vec3(0.0, 1.0, 0.0), 0.0, 0.0, true);
            var rayIn := Ray(Vec3(0.0, 0.0, 0.0), Vec3(1.0, 0.0, 0.0), time);
            var written := MetalScatterAsWritten(ops, albedo, 1.0, rayIn, info, Vec3(0.0, -1.0, 0.0));
            && Dot(info.normal, written.scattered.direction) < 0.0
            && written.scatters
            && !MetalScatter(ops, albedo, 1.0, rayIn, info, Vec3(0.0, -1.0, 0.0)).scatters
  {
    var info := HitInfo(p, Vec3(0.0, 1.0, 0.0), 0.0, 0.0, true);
    var rayIn := Ray(Vec3(0.0, 0.0, 0.0), Vec3(1.0, 0.0, 0.0), time);
    var d := MetalDirection(ops, rayIn, info.normal, 1.0, Vec3(0.0, -1.0, 0.0));
    assert d == Vec3(1.0, -1.0, 0.0);
    assert Dot(info.normal, d) == -1.0;
  }

  // ---------------------------------------------------------------------
  // Dielectric
  // ---------------------------------------------------------------------

  /** Relative index of refraction: 1/eta entering from outside, eta leaving. */
  function RefractionRatio(eta: real, frontFace: bool): (ratio: real)
    requires eta > 0.0
    ensures ratio > 0.0
    ensures frontFace ==> ratio * eta == 1.0
    ensures !frontFace ==> ratio == eta
  {
    if frontFace then 1.0 / eta else eta
  }

  /** `fmin(-dot(unit_dir, normal), 1.0)`. */
  function CosTheta(unitDir: Vec3, normal: Vec3): (c: real)
    ensures c <= 1.0 && c <= -Dot(unitDir, normal)
    ensures c == 1.0 || c == -Dot(unitDir, normal)
  {
    var d := -Dot(unitDir, normal);
    if d < 1.0 then d else 1.0
  }

  /** `ratio * sqrt(1 - cos^2) > 1`, written without the square root. When
      `1 - cos^2` is negative the square root is not a number and the
      comparison is false, as here. */
  predicate CannotRefract(ratio: real, cosTheta: real)
    ensures CannotRefract(ratio, cosTheta) ==> ratio > 0.0 && cosTheta * cosTheta < 1.0
  {
    var sin2 := 1.0 - cosTheta * cosTheta;
    sin2 >= 0.0 && ratio > 0.0 && ratio * ratio * sin2 > 1.0
  }

  /** The test above is the test in the code, for the square root sin_theta
      of `1 - cos^2`. */
  lemma CannotRefractMatchesSqrt(ratio: real, cosTheta: real, sinTheta: real)
    requires sinTheta >= 0.0 && sinTheta * sinTheta == 1.0 - cosTheta * cosTheta
    ensures CannotRefract(ratio, cosTheta) <==> ratio * sinTheta > 1.0
  {
    var t := ratio * sinTheta;
    assert ratio * ratio * (sinTheta * sinTheta) == t * t;
    if t > 1.0 {
      assert t * t > 1.0 by { MulMonotone(1.0, t, 1.0, t); }
    }
    if CannotRefract(ratio, cosTheta) {
      assert t >= 0.0;
      if t <= 1.0 {
        MulMonotone(t, 1.0, t, 1.0);
        assert false;
      }
    }
  }

  /** A ratio of at most 1 (light passing into an optically denser medium,
      or a matched index) never gives total internal reflection. */
  lemma NoTotalReflectionWhenRatioAtMostOne(ratio: real, cosTheta: real)
    requires ratio <= 1.0
    ensures !CannotRefract(ratio, cosTheta)
  {
    var sin2 := 1.0 - cosTheta * cosTheta;
    if sin2 >= 0.0 && ratio > 0.0 {
      assert cosTheta * cosTheta >= 0.0;
      MulMonotone(ratio, 1.0, ratio, 1.0);
      MulMonotone(ratio * ratio, 1.0, sin2, 1.0);
    }
  }

  /** `pow(x, 5)`. */
  function Pow5(x: real): real {
    x * x * x * x * x
  }

  /** On [0, 1] the fifth power stays in [0, x]; it is never negative for a
      non-negative base. */
  lemma Pow5Bounds(x: real)
    ensures 0.0 <= x ==> 0.0 <= Pow5(x)
    ensures 0.0 <= x <= 1.0 ==> Pow5(x) <= x
  {
    if 0.0 <= x {
      MulMonotone(0.0, x, 0.0, x);
      MulMonotone(0.0, x * x, 0.0, x);
      MulMonotone(0.0, x * x * x, 0.0, x);
      MulMonotone(0.0, x * x * x * x, 0.0, x);
      if x <= 1.0 {
        MulMonotone(x, 1.0, x, 1.0);
        MulMonotone(x * x, 1.0, x, 1.0);
        MulMonotone(x * x * x, 1.0, x, 1.0);
        MulMonotone(x * x * x * x, 1.0, x, x);
      }
    }
  }

  /** Schlick's reflectance at normal incidence, `((1 - ri) / (1 + ri))^2`. */
  function BaseReflectance(ri: real): (r0: real)
    requires ri != -1.0
    ensures r0 >= 0.0
    ensures ri == 1.0 ==> r0 == 0.0
  {
    var q := (1.0 - ri) / (1.0 + ri);
    q * q
  }

  /** `Dielectric::reflectance`: Schlick's approximation of the Fresnel
      reflectance. It starts at the base reflectance head-on and reaches 1
      at grazing incidence. */
  function Reflectance(cosine: real, ri: real): (r: real)
    requires ri != -1.0
    ensures cosine == 1.0 ==> r == BaseReflectance(ri)
    ensures cosine == 0.0 ==> r == 1.0
  {
    var r0 := BaseReflectance(ri);
    r0 + (1.0 - r0) * Pow5(1.0 - cosine)
  }

  /** Does the dielectric reflect (rather than refract) for this draw? */
  predicate ChoosesReflection(ratio: real, cosTheta: real, rnd: real)
    requires ratio != -1.0
    ensures CannotRefract(ratio, cosTheta) ==> ChoosesReflection(ratio, cosTheta, rnd)
    ensures !CannotRefract(ratio, cosTheta) ==> (ChoosesReflection(ratio, cosTheta, rnd) <==> rnd < Reflectance(cosTheta, ratio))
  {
    CannotRefract(ratio, cosTheta) || Reflectance(cosTheta, ratio) > rnd
  }

  function DielectricScatter(ops: VecOps, eta: real, rayIn: Ray, info: HitInfo, rnd: real): (out: ScatterOut)
    requires eta > 0.0
    ensures out.scatters && out.attenuation == White
    ensures out.scattered.origin == info.p && out.scattered.time == rayIn.time
    ensures var unitDir := ops.normalize(rayIn.direction);
            || out.scattered.direction == ops.reflect(unitDir, info.normal)
            || out.scattered.direction == ops.refract(unitDir, info.normal, RefractionRatio(eta, info.frontFace))
  {
    var ratio := RefractionRatio(eta, info.frontFace);
    var unitDir := ops.normalize(rayIn.direction);
    var cosTheta := CosTheta(unitDir, info.normal);
    var direction :=
      if ChoosesReflection(ratio, cosTheta, rnd) then ops.reflect(unitDir, info.normal)
      else ops.refract(unitDir, info.normal, ratio);
    ScatterOut(true, White, Ray(info.p, direction, rayIn.time))
  }

  /** Past the critical angle the dielectric reflects, whatever the draw;
      otherwise it reflects exactly when Schlick's reflectance exceeds it. */
  lemma DielectricDirectionChoice(ops: VecOps, eta: real, rayIn: Ray, info: HitInfo, rnd: real)
    requires eta > 0.0
    ensures var unitDir := ops.normalize(rayIn.direction);
            var ratio := RefractionRatio(eta, info.frontFace);
            var cosTheta := CosTheta(unitDir, info.normal);
            var d := DielectricScatter(ops, eta, rayIn, info, rnd).scattered.direction;
            && (CannotRefract(ratio, cosTheta) ==> d == ops.reflect(unitDir, info.normal))
            && (!CannotRefract(ratio, cosTheta) && Reflectance(cosTheta, ratio) > rnd ==> d == ops.reflect(unitDir, info.normal))
            && (!CannotRefract(ratio, cosTheta) && Reflectance(cosTheta, ratio) <= rnd ==> d == ops.refract(unitDir, info.normal, ratio))
  {
  }

  /** A draw below the base reflectance always reflects. */
  lemma DielectricLowDrawReflects(ops: VecOps, eta: real, rayIn: Ray, info: HitInfo, rnd: real)
    requires eta > 0.0
    requires rnd < BaseReflectance(RefractionRatio(eta, info.frontFace))
    ensures DielectricScatter(ops, eta, rayIn, info, rnd).scattered.direction
            == ops.reflect(ops.normalize(rayIn.direction), info.normal)
  {
    var ratio := RefractionRatio(eta, info.frontFace);
    ReflectanceAtLeastBase(CosTheta(ops.normalize(rayIn.direction), info.normal), ratio);
  }

  /** Off grazing incidence (cos > 0) and short of the critical angle, the
      draws in [reflectance, 1), a non-empty part of the range of
      `randomDouble()`, all refract. */
  lemma DielectricHighDrawRefracts(ops: VecOps, eta: real, rayIn: Ray, info: HitInfo, rnd: real)
    requires eta > 0.0
    requires CosTheta(ops.normalize(rayIn.direction), info.normal) > 0.0
    requires !CannotRefract(RefractionRatio(eta, info.frontFace), CosTheta(ops.normalize(rayIn.direction), info.normal))
    requires Reflectance(CosTheta(ops.normalize(rayIn.direction), info.normal), RefractionRatio(eta, info.frontFace)) <= rnd
    ensures Reflectance(CosTheta(ops.normalize(rayIn.direction), info.normal), RefractionRatio(eta, info.frontFace)) < 1.0
    ensures var unitDir := ops.normalize(rayIn.direction);
            DielectricScatter(ops, eta, rayIn, info, rnd).scattered.direction
            == ops.refract(unitDir, info.normal, RefractionRatio(eta, info.frontFace))
  {
    var ratio := RefractionRatio(eta, info.frontFace);
    ReflectanceBelowOneOffGrazing(CosTheta(ops.normalize(rayIn.direction), info.normal), ratio);
  }

  /** Entering a material at least as dense as the outside never totally
      reflects. */
  lemma DielectricEnteringDenserNeverTotallyReflects(eta: real, cosTheta: real)
    requires eta >= 1.0
    ensures !CannotRefract(RefractionRatio(eta, true), cosTheta)
  {
    var ratio := RefractionRatio(eta, true);
    MulMonotone(1.0, eta, ratio, ratio);
    NoTotalReflectionWhenRatioAtMostOne(ratio, cosTheta);
  }

  /** A matched index (eta = 1) never totally reflects, and a head-on hit
      (cos = 1) refracts for every draw of 0 or more. At oblique incidence
      Schlick's reflectance is positive, so a draw of 0 reflects there. */
  lemma DielectricMatchedIndexHeadOnRefracts(ops: VecOps, rayIn: Ray, info: HitInfo, rnd: real)
    requires CosTheta(ops.normalize(rayIn.direction), info.normal) == 1.0
    requires rnd >= 0.0
    ensures DielectricScatter(ops, 1.0, rayIn, info, rnd).scattered.direction
            == ops.refract(ops.normalize(rayIn.direction), info.normal, 1.0)
  {
    NoTotalReflectionWhenRatioAtMostOne(1.0, 1.0);
  }

  /** Leaving glass (eta = 1.5, back face) at an angle whose cosine is 0.6,
      so whose sine 0.8 exceeds 1/1.5: the ray reflects for any draw. */
  lemma DielectricTotalReflectionExample(ops: VecOps, p: Point3, time: real, rnd: real)
    requires ops.normalize(Vec3(0.8, -0.6, 0.0)) == Vec3(0.8, -0.6, 0.0)
    ensures var info := HitInfo(p, Vec3(0.0, 1.0, 0.0), 0.0, 0.0, false);
            var rayIn := Ray(Vec3(0.0, 0.0, 0.0), Vec3(0.8, -0.6, 0.0), time);
            DielectricScatter(ops, 1.5, rayIn, info, rnd).scattered.direction
            == ops.reflect(Vec3(0.8, -0.6, 0.0), Vec3(0.0, 1.0, 0.0))
  {
    assert CosTheta(Vec3(0.8, -0.6, 0.0), Vec3(0.0, 1.0, 0.0)) == 0.6;
    assert CannotRefract(1.5, 0.6);
  }

  // Schlick's approximation: bounds and monotonicity

  /** r0 + (1 - r0) * q, a blend of r0 towards 1, stays below 1. */
  lemma BlendBelowOne(r0: real, q: real)
    requires r0 < 1.0 && q < 1.0
    ensures r0 + (1.0 - r0) * q < 1.0
  {
    var a, b := 1.0 - r0, 1.0 - q;
    MulPositive(a, b);
    assert a * b == (1.0 - r0) * (1.0 - q);
  }

  lemma MulPositive(a: real, b: real)
    requires a > 0.0 && b > 0.0
    ensures a * b > 0.0
  {
  }

  lemma MulMonotone(a: real, b: real, c: real, d: real)
    requires 0.0 <= a <= b && 0.0 <= c <= d
    ensures a * c <= b * d
  {
    assert a * c <= b * c;
    assert b * c <= b * d;
  }

  lemma Pow5Monotone(x: real, y: real)
    requires 0.0 <= x <= y
    ensures 0.0 <= Pow5(x) <= Pow5(y)
  {
    MulMonotone(x, y, x, y);
    MulMonotone(x * x, y * y, x, y);
    MulMonotone(x * x * x, y * y * y, x, y);
    MulMonotone(x * x * x * x, y * y * y * y, x, y);
  }

  lemma BaseReflectanceBelowOne(ri: real)
    requires ri > 0.0
    ensures BaseReflectance(ri) < 1.0
  {
    var q := (1.0 - ri) / (1.0 + ri);
    assert q * (1.0 + ri) == 1.0 - ri;
    assert (1.0 - q) * (1.0 + ri) == 2.0 * ri;
    assert (1.0 + q) * (1.0 + ri) == 2.0;
    assert -1.0 < q < 1.0;
    assert (1.0 - q) * (1.0 + q) > 0.0;
  }

  /** For a positive ratio and 0 <= cos <= 1, Schlick's reflectance lies
      between the base reflectance and 1, and the base reflectance is below 1. */
  lemma ReflectanceBounds(cosine: real, ri: real)
    requires ri > 0.0 && 0.0 <= cosine <= 1.0
    ensures 0.0 <= BaseReflectance(ri) < 1.0
    ensures BaseReflectance(ri) <= Reflectance(cosine, ri) <= 1.0
  {
    var r0 := BaseReflectance(ri);
    BaseReflectanceBelowOne(ri);
    ReflectanceAtLeastBase(cosine, ri);
    Pow5Bounds(1.0 - cosine);
    MulMonotone(1.0 - r0, 1.0 - r0, Pow5(1.0 - cosine), 1.0);
  }

  /** For a positive ratio and any cos <= 1 (every value `fmin` yields),
      the reflectance is at least the base reflectance. */
  lemma ReflectanceAtLeastBase(cosine: real, ri: real)
    requires ri > 0.0 && cosine <= 1.0
    ensures BaseReflectance(ri) <= Reflectance(cosine, ri)
  {
    var r0 := BaseReflectance(ri);
    BaseReflectanceBelowOne(ri);
    Pow5Bounds(1.0 - cosine);
    MulMonotone(0.0, 1.0 - r0, 0.0, Pow5(1.0 - cosine));
  }

  /** Only at grazing incidence does the reflectance reach 1: for
      0 < cos <= 1 it is strictly below 1. */
  lemma ReflectanceBelowOneOffGrazing(cosine: real, ri: real)
    requires ri > 0.0 && 0.0 < cosine <= 1.0
    ensures Reflectance(cosine, ri) < 1.0
  {
    var r0 := BaseReflectance(ri);
    var q := Pow5(1.0 - cosine);
    BaseReflectanceBelowOne(ri);
    Pow5Bounds(1.0 - cosine);
    BlendBelowOne(r0, q);
  }

  /** Grazing angles reflect more: the reflectance falls as cos rises. */
  lemma ReflectanceFallsWithCosine(c1: real, c2: real, ri: real)
    requires ri > 0.0 && 0.0 <= c1 <= c2 <= 1.0
    ensures Reflectance(c2, ri) <= Reflectance(c1, ri)
  {
    var r0 := BaseReflectance(ri);
    BaseReflectanceBelowOne(ri);
    Pow5Monotone(1.0 - c2, 1.0 - c1);
    MulMonotone(1.0 - r0, 1.0 - r0, Pow5(1.0 - c2), Pow5(1.0 - c1));
  }

  // ---------------------------------------------------------------------
  // Diffuse light and isotropic medium
  // ---------------------------------------------------------------------

  /** `DiffuseLight::scatter` never continues the path and leaves both
      out-parameters as the caller had them. */
  function DiffuseLightScatter(attenuation: Color, scattered: Ray): (out: ScatterOut)
    ensures !out.scatters
    ensures out.attenuation == attenuation && out.scattered == scattered
  {
    ScatterOut(false, attenuation, scattered)
  }

  function IsotropicScatter(sample: Sampler, albedo: Texture, rayIn: Ray, info: HitInfo, r: Vec3): (out: ScatterOut)
    ensures out.scatters
    ensures out.scattered == Ray(info.p, r, rayIn.time)
    ensures out.attenuation == Value(sample, albedo, info.u, info.v, info.p)
  {
    ScatterOut(true, Value(sample, albedo, info.u, info.v, info.p), Ray(info.p, r, rayIn.time))
  }

  /** The isotropic medium ignores the surface normal and side. */
  lemma IsotropicIgnoresNormal(sample: Sampler, albedo: Texture, rayIn: Ray, info1: HitInfo, info2: HitInfo, r: Vec3)
    requires info1.p == info2.p && info1.u == info2.u && info1.v == info2.v
    ensures IsotropicScatter(sample, albedo, rayIn, info1, r) == IsotropicScatter(sample, albedo, rayIn, info2, r)
  {
  }

  // ---------------------------------------------------------------------
  // The material contract
  // ---------------------------------------------------------------------

  /** `Material::scatter`, dispatched over the variants. `attenuation` and
      `scattered` are the out-parameters' values before the call. Metal's
      flag is the code's `dot != 0` (see MetalScatterAsWritten). */
  function Scatter(ops: VecOps, sample: Sampler, m: Material, rayIn: Ray, info: HitInfo, draws: Draws,
                   attenuation: Color, scattered: Ray): (out: ScatterOut)
    requires WellFormed(m)
    ensures m.DiffuseLight? ==> out == ScatterOut(false, attenuation, scattered)
    ensures !m.DiffuseLight? ==> out.scattered.origin == info.p && out.scattered.time == rayIn.time
    ensures out.scatters <==> !m.DiffuseLight? && (m.Metal? ==> Dot(info.normal, out.scattered.direction) != 0.0)
    ensures (m.Lambertian? || m.Isotropic?) ==> out.attenuation == Value(sample, m.albedo, info.u, info.v, info.p)
    ensures m.Metal? ==> out.attenuation == m.albedoColor
    ensures m.Dielectric? ==> out.attenuation == White
    ensures m.Lambertian? ==> out.scattered.direction == LambertianDirection(ops, info.normal, draws.unitVec)
    ensures m.Metal? ==> out.scattered.direction == MetalDirection(ops, rayIn, info.normal, m.fuzz, draws.unitVec)
    ensures m.Dielectric? ==> out == DielectricScatter(ops, m.eta, rayIn, info, draws.scalar)
    ensures m.Isotropic? ==> out.scattered.direction == draws.unitVec
  {
    match m
    case Lambertian(albedo) => LambertianScatter(ops, sample, albedo, rayIn, info, draws.unitVec)
    case Metal(albedoColor, fuzz) => MetalScatterAsWritten(ops, albedoColor, fuzz, rayIn, info, draws.unitVec)
    case Dielectric(eta) => DielectricScatter(ops, eta, rayIn, info, draws.scalar)
    case DiffuseLight(_) => DiffuseLightScatter(attenuation, scattered)
    case Isotropic(albedo) => IsotropicScatter(sample, albedo, rayIn, info, draws.unitVec)
  }

  /** The dispatch with Metal's sign test as its comment intends. It gives
      the same rays and attenuations as `Scatter`, and the two flags differ
      only for a metal whose scattered direction points below the surface. */
  function ScatterIntended(ops: VecOps, sample: Sampler, m: Material, rayIn: Ray, info: HitInfo, draws: Draws,
                           attenuation: Color, scattered: Ray): (out: ScatterOut)
    requires WellFormed(m)
    ensures out.scatters <==> !m.DiffuseLight? && (m.Metal? ==> Dot(info.normal, out.scattered.direction) > 0.0)
    ensures var written := Scatter(ops, sample, m, rayIn, info, draws, attenuation, scattered);
            && out.attenuation == written.attenuation
            && out.scattered == written.scattered
            && (out.scatters != written.scatters <==> m.Metal? && Dot(info.normal, out.scattered.direction) < 0.0)
  {
    match m
    case Metal(albedoColor, fuzz) => MetalScatter(ops, albedoColor, fuzz, rayIn, info, draws.unitVec)
    case _ => Scatter(ops, sample, m, rayIn, info, draws, attenuation, scattered)
  }

  /** No current variant both emits and scatters: a material whose scatter
      continues the path emits black everywhere. */
  lemma ScatteringSurfacesDoNotEmit(ops: VecOps, sample: Sampler, m: Material, rayIn: Ray, info: HitInfo, draws: Draws,
                                    attenuation: Color, scattered: Ray, u: real, v: real, p: Point3)
    requires WellFormed(m)
    ensures Scatter(ops, sample, m, rayIn, info, draws, attenuation, scattered).scatters ==> Emitted(sample, m, u, v, p) == Black
  {
  }

  /** A grey Lambertian hit straight on, with the random draw along the
      normal: the ray continues along twice the normal with the grey albedo. */
  lemma LambertianExample(ops: VecOps, sample: Sampler, rayIn: Ray, p: Point3, u: real, v: real, frontFace: bool,
                          rnd: real, attenuation: Color, scattered: Ray)
    requires !ops.nearZero(Vec3(0.0, 2.0, 0.0))
    ensures var grey := Vec3(0.5, 0.5, 0.5);
            var up := Vec3(0.0, 1.0, 0.0);
            Scatter(ops, sample, LambertianFromColor(grey), rayIn, HitInfo(p, up, u, v, frontFace), Draws(up, rnd), attenuation, scattered)
            == ScatterOut(true, grey, Ray(p, Vec3(0.0, 2.0, 0.0), rayIn.time))
  {
  }
}
