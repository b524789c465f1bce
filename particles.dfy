/** The animated particle field: `createParticles` (the second declaration, which is the
    one in effect), the density presets of `createResponsiveParticles`, the rebuild done
    when a resize settles, and the cursor repulsion of `createInteractiveParticles`.

    Particles are records with numeric fields in place of CSS strings.  `Math.random()` is
    an injected sequence `rng` of reals, nine per particle, consumed in the order the
    source calls it: size, opacity, left, top, animation delay, animation duration, first
    hue, border radius, rotation. */
module Particles {
  import opened JsText

  /** Calls of `Math.random()` per particle. */
  const DrawsPerParticle: nat := 9

  datatype Range = Range(min: real, max: real)

  const DefaultSizeRange: Range := Range(3.0, 30.0)
  const DefaultOpacityRange: Range := Range(0.1, 0.6)

  /** The `transform` style: the rotation set at creation, a push of 30 px away from the
      cursor in the direction of (dx, dy) (along +x when both are 0, as `atan2(0, 0)` is
      0), or `translate(0, 0)`. */
  datatype Transform = Rotate(degrees: real) | PushAway(dx: real, dy: real) | Rest

  datatype Particle = Particle(
    size: real,                 // width and height, px
    opacity: real,
    left: real,                 // %
    top: real,                  // %
    animationDelay: real,       // s
    animationDuration: real,    // s
    hue1: real,                 // first gradient stop
    hue2: real,                 // second gradient stop
    borderRadius: nat,          // %
    blur: real,                 // px
    transform: Transform,
    transition: Option<real>)   // seconds of the transform transition, once one is set

  /** The product of a random draw and the width of a range. */
  function Times(a: real, b: real): real {
    a * b
  }

  /** `r * (range.max - range.min) + range.min`. */
  function Scale(r: real, range: Range): real {
    Times(r, range.max - range.min) + range.min
  }

  /** Truncation toward zero. */
  function Trunc(x: real): int {
    if x >= 0.0 then x.Floor else -((-x).Floor)
  }

  /** JavaScript's `%` on numbers: the remainder of truncating division. */
  function JsRem(a: real, n: real): real
    requires n != 0.0
  {
    a - n * Trunc(a / n) as real
  }

  /** `(hue1 + 120) % 360`: on a hue in [0, 360) it is the hue turned by 120 degrees. */
  function ComplementHue(hue1: real): (hue2: real)
    ensures 0.0 <= hue1 < 360.0 ==> 0.0 <= hue2 < 360.0 && (hue2 == hue1 + 120.0 || hue2 == hue1 - 240.0)
  {
    var a := hue1 + 120.0;
    assert 0.0 <= hue1 < 240.0 ==> Trunc(a / 360.0) == 0;
    assert 240.0 <= hue1 < 360.0 ==> Trunc(a / 360.0) == 1;
    JsRem(a, 360.0)
  }

  /** One particle from its nine draws. */
  function MakeParticle(d: seq<real>, sizeRange: Range, opacityRange: Range): (p: Particle)
    requires |d| == DrawsPerParticle
    ensures p.hue2 == ComplementHue(p.hue1)
    ensures p.blur == p.size / 10.0
    ensures p.borderRadius == 30 <==> d[7] > 0.7
    ensures p.transform.Rotate? && p.transition.None?
  {
    var size := Scale(d[0], sizeRange);
    var hue1 := d[6] * 360.0;
    Particle(size, Scale(d[1], opacityRange), d[2] * 100.0, d[3] * 100.0,
             d[4] * 5.0, d[5] * 4.0 + 4.0, hue1, ComplementHue(hue1),
             if d[7] > 0.7 then 30 else 50, size * 0.1, Rotate(d[8] * 360.0), None)
  }

  /** The first `n` particles built from `rng`, in order. */
  function Batch(n: nat, rng: seq<real>, sizeRange: Range, opacityRange: Range): (ps: seq<Particle>)
    requires |rng| >= DrawsPerParticle * n
    ensures |ps| == n
  {
    if n == 0 then []
    else
      var k := n - 1;
      Batch(k, rng, sizeRange, opacityRange)
        + [MakeParticle(rng[DrawsPerParticle * k..DrawsPerParticle * k + DrawsPerParticle], sizeRange, opacityRange)]
  }

  /** Particle `k` of a batch is made from draws 9k to 9k+8. */
  lemma {:induction false} BatchAt(n: nat, rng: seq<real>, sizeRange: Range, opacityRange: Range)
    requires |rng| >= DrawsPerParticle * n
    ensures |Batch(n, rng, sizeRange, opacityRange)| == n
    ensures forall k :: 0 <= k < n ==>
              Batch(n, rng, sizeRange, opacityRange)[k]
              == MakeParticle(rng[DrawsPerParticle * k..DrawsPerParticle * k + DrawsPerParticle], sizeRange, opacityRange)
  {
    if n > 0 {
      BatchAt(n - 1, rng, sizeRange, opacityRange);
    }
  }

  // ---------------------------------------------------------------------------
  // Attribute bounds

  predicate IsUnit(r: real) {
    0.0 <= r < 1.0
  }

  /** What `Math.random()` promises: every draw in [0, 1). */
  predicate UnitDraws(rng: seq<real>) {
    forall k :: 0 <= k < |rng| ==> IsUnit(rng[k])
  }

  /** Between the two ends of a range: in [min, max) when min < max, equal to min when
      they coincide, and in (max, min] for an inverted range, which is not clamped. */
  predicate Within(x: real, range: Range) {
    if range.min < range.max then range.min <= x < range.max
    else if range.min == range.max then x == range.min
    else range.max < x <= range.min
  }

  predicate WellFormed(p: Particle, sizeRange: Range, opacityRange: Range) {
    && Within(p.size, sizeRange)
    && Within(p.opacity, opacityRange)
    && 0.0 <= p.left < 100.0 && 0.0 <= p.top < 100.0
    && 0.0 <= p.animationDelay < 5.0
    && 4.0 <= p.animationDuration < 8.0
    && 0.0 <= p.hue1 < 360.0 && 0.0 <= p.hue2 < 360.0
    && (p.hue2 == p.hue1 + 120.0 || p.hue2 == p.hue1 - 240.0)
    && (p.borderRadius == 30 || p.borderRadius == 50)
    && p.blur == p.size / 10.0
    && p.transform.Rotate? && 0.0 <= p.transform.degrees < 360.0
    && p.transition.None?
  }

  lemma UnitTimes(r: real, c: real)
    requires IsUnit(r) && c > 0.0
    ensures 0.0 <= Times(r, c) < c
  {
    assert (1.0 - r) * c > 0.0;
  }

  lemma ScaleWithin(r: real, range: Range)
    requires IsUnit(r)
    ensures Within(Scale(r, range), range)
  {
    if range.min < range.max {
      UnitTimes(r, range.max - range.min);
    } else if range.max < range.min {
      UnitTimes(r, range.min - range.max);
      assert Times(r, range.max - range.min) == -Times(r, range.min - range.max);
    }
  }

  /** Each attribute of a new particle lies in its range, and the radius is 30% exactly
      when the eighth draw exceeds 0.7. */
  lemma MakeParticleBounds(d: seq<real>, sizeRange: Range, opacityRange: Range)
    requires |d| == DrawsPerParticle && UnitDraws(d)
    ensures WellFormed(MakeParticle(d, sizeRange, opacityRange), sizeRange, opacityRange)
    ensures MakeParticle(d, sizeRange, opacityRange).borderRadius == 30 <==> d[7] > 0.7
  {
    assert IsUnit(d[0]) && IsUnit(d[1]) && IsUnit(d[2]) && IsUnit(d[3]) && IsUnit(d[4]);
    assert IsUnit(d[5]) && IsUnit(d[6]) && IsUnit(d[8]);
    ScaleWithin(d[0], sizeRange);
    ScaleWithin(d[1], opacityRange);
  }

  /** Every particle of a batch built from genuine draws is well formed. */
  lemma BatchBounds(n: nat, rng: seq<real>, sizeRange: Range, opacityRange: Range)
    requires |rng| >= DrawsPerParticle * n && UnitDraws(rng)
    ensures forall p :: p in Batch(n, rng, sizeRange, opacityRange) ==> WellFormed(p, sizeRange, opacityRange)
  {
    var b := Batch(n, rng, sizeRange, opacityRange);
    BatchAt(n, rng, sizeRange, opacityRange);
    forall p | p in b ensures WellFormed(p, sizeRange, opacityRange) {
      var k :| 0 <= k < |b| && b[k] == p;
      SliceDraws(rng, DrawsPerParticle * k);
      MakeParticleBounds(rng[DrawsPerParticle * k..DrawsPerParticle * k + DrawsPerParticle], sizeRange, opacityRange);
    }
  }

  lemma SliceDraws(rng: seq<real>, lo: nat)
    requires lo + DrawsPerParticle <= |rng| && UnitDraws(rng)
    ensures UnitDraws(rng[lo..lo + DrawsPerParticle])
  {
    var d := rng[lo..lo + DrawsPerParticle];
    forall j | 0 <= j < |d| ensures IsUnit(d[j]) {
      assert d[j] == rng[lo + j];
    }
  }

  // ---------------------------------------------------------------------------
  // Density presets

  /** The names an object literal inherits from `Object.prototype`. */
  const InheritedNames: set<string> := {
    "constructor", "__defineGetter__", "__defineSetter__", "hasOwnProperty",
    "__lookupGetter__", "__lookupSetter__", "isPrototypeOf", "propertyIsEnumerable",
    "toString", "valueOf", "__proto__", "toLocaleString" }

  /** What `densityMap[density] || 50` yields: a count, or an inherited member of
      `Object.prototype`, which is truthy but not a number. */
  datatype DensityValue = Count(n: nat) | InheritedMember

  /** `createResponsiveParticles`' lookup, `density` defaulting to 'medium'. */
  function DensityLookup(density: Option<string>): (r: DensityValue)
    ensures density.None? ==> r == Count(50)
    ensures density == Some("low") ==> r == Count(20)
    ensures density == Some("medium") ==> r == Count(50)
    ensures density == Some("high") ==> r == Count(100)
    ensures density == Some("very-high") ==> r == Count(200)
    ensures r == InheritedMember <==> density.Some? && density.value in InheritedNames
    ensures (density.Some? && density.value !in {"low", "medium", "high", "very-high"}
             && density.value !in InheritedNames) ==> r == Count(50)
    ensures r.Count? ==> r.n in {20, 50, 100, 200}
  {
    var key := if density.Some? then density.value else "medium";
    if key == "low" then Count(20)
    else if key == "medium" then Count(50)
    else if key == "high" then Count(100)
    else if key == "very-high" then Count(200)
    else if key in InheritedNames then InheritedMember
    else Count(50)
  }

  /** How often `for (let i = 0; i < count; i++)` runs: a non-number compares false. */
  function LoopCount(v: DensityValue): (n: nat)
    ensures v.Count? ==> n == v.n
    ensures v.InheritedMember? ==> n == 0
  {
    match v
    case Count(n) => n
    case InheritedMember => 0
  }

  /** Iterations of the build loop for an integer `count`. */
  function Iterations(count: int): nat {
    if count > 0 then count else 0
  }

  // ---------------------------------------------------------------------------
  // The page

  /** An element that holds particles. */
  class Container {
    var children: seq<Particle>
    var mousemoveListeners: nat

    constructor (children: seq<Particle>)
      ensures this.children == children && mousemoveListeners == 0
    {
      this.children := children;
      mousemoveListeners := 0;
    }
  }

  /** `document.getElementById`, restricted to particle containers. */
  class Document {
    var byId: map<string, Container>

    constructor (byId: map<string, Container>)
      ensures this.byId == byId
    {
      this.byId := byId;
    }
  }

  /** The objects a build under `id` may change. */
  function Target(doc: Document, id: string): set<Container>
    reads doc
  {
    if id in doc.byId then {doc.byId[id]} else {}
  }

  /** `createParticles(containerId, count, sizeRange, opacityRange)`: a missing container
      is a silent no-op; otherwise the container is emptied and then receives exactly the
      batch built from `rng`, appended in one step. */
  method CreateParticles(doc: Document, id: string, count: int, sizeRange: Range, opacityRange: Range, rng: seq<real>)
    requires |rng| >= DrawsPerParticle * Iterations(count)
    modifies Target(doc, id)
    ensures id in doc.byId ==> doc.byId[id].children == Batch(Iterations(count), rng, sizeRange, opacityRange)
    ensures id in doc.byId ==> doc.byId[id].mousemoveListeners == old(doc.byId[id].mousemoveListeners)
  {
    if id !in doc.byId {
      return;
    }
    var container := doc.byId[id];
    container.children := [];
    var fragment: seq<Particle> := [];
    var i := 0;
    while i < count
      invariant 0 <= i <= Iterations(count)
      invariant fragment == Batch(i, rng, sizeRange, opacityRange)
      invariant container.children == []
    {
      var lo := DrawsPerParticle * i;
      fragment := fragment + [MakeParticle(rng[lo..lo + DrawsPerParticle], sizeRange, opacityRange)];
      i := i + 1;
    }
    container.children := container.children + fragment;
  }

  /** The options of `createResponsiveParticles`; absent ones take their defaults. */
  datatype Options = Options(density: Option<string>, sizeRange: Option<Range>, opacityRange: Option<Range>)

  /** `createResponsiveParticles(containerId, options)`. */
  method CreateResponsiveParticles(doc: Document, id: string, options: Options, rng: seq<real>)
    requires |rng| >= DrawsPerParticle * LoopCount(DensityLookup(options.density))
    modifies Target(doc, id)
    ensures id in doc.byId ==>
              doc.byId[id].children
              == Batch(LoopCount(DensityLookup(options.density)), rng,
                       if options.sizeRange.Some? then options.sizeRange.value else DefaultSizeRange,
                       if options.opacityRange.Some? then options.opacityRange.value else DefaultOpacityRange)
    ensures id in doc.byId ==> doc.byId[id].mousemoveListeners == old(doc.byId[id].mousemoveListeners)
  {
    var sizeRange := if options.sizeRange.Some? then options.sizeRange.value else DefaultSizeRange;
    var opacityRange := if options.opacityRange.Some? then options.opacityRange.value else DefaultOpacityRange;
    var count := LoopCount(DensityLookup(options.density));
    CreateParticles(doc, id, count, sizeRange, opacityRange, rng);
  }

  /** The body of the debounced resize callback: rebuild with as many particles as the
      container holds, with the default ranges, if the container exists and is not empty. */
  method OnResizeSettled(doc: Document, id: string, rng: seq<real>)
    requires id in doc.byId ==> |rng| >= DrawsPerParticle * |doc.byId[id].children|
    modifies Target(doc, id)
    ensures id in doc.byId && old(doc.byId[id].children) != [] ==>
              doc.byId[id].children == Batch(|old(doc.byId[id].children)|, rng, DefaultSizeRange, DefaultOpacityRange)
    ensures id in doc.byId && old(doc.byId[id].children) == [] ==> doc.byId[id].children == []
    ensures id in doc.byId ==> doc.byId[id].mousemoveListeners == old(doc.byId[id].mousemoveListeners)
  {
    if id in doc.byId && |doc.byId[id].children| > 0 {
      var count := |doc.byId[id].children|;
      CreateParticles(doc, id, count, DefaultSizeRange, DefaultOpacityRange, rng);
    }
  }

  /** `createInteractiveParticles(containerId, count)`: builds with the default ranges and
      adds a mousemove listener; with no container the build is a no-op and adding the
      listener to null throws a TypeError. */
  method CreateInteractiveParticles(doc: Document, id: string, count: int, rng: seq<real>) returns (threw: bool)
    requires |rng| >= DrawsPerParticle * Iterations(count)
    modifies Target(doc, id)
    ensures threw <==> id !in doc.byId
    ensures !threw ==> doc.byId[id].children == Batch(Iterations(count), rng, DefaultSizeRange, DefaultOpacityRange)
    ensures !threw ==> doc.byId[id].mousemoveListeners == old(doc.byId[id].mousemoveListeners) + 1
  {
    CreateParticles(doc, id, count, DefaultSizeRange, DefaultOpacityRange, rng);
    if id !in doc.byId {
      return true;
    }
    var container := doc.byId[id];
    container.mousemoveListeners := container.mousemoveListeners + 1;
    threw := false;
  }

  /** The DOMContentLoaded listener: an interactive field of 100 particles in the element
      'particles'.  It then registers the resize listener, whose settled body is
      `OnResizeSettled`; when the build throws, that registration never happens. */
  method OnPageReady(doc: Document, rng: seq<real>) returns (threw: bool)
    requires |rng| >= DrawsPerParticle * 100
    modifies Target(doc, "particles")
    ensures threw <==> "particles" !in doc.byId
    ensures !threw ==> doc.byId["particles"].children == Batch(100, rng, DefaultSizeRange, DefaultOpacityRange)
    ensures !threw ==> doc.byId["particles"].mousemoveListeners == old(doc.byId["particles"].mousemoveListeners) + 1
  {
    threw := CreateInteractiveParticles(doc, "particles", 100, rng);
  }

  // ---------------------------------------------------------------------------
  // Repulsion

  /** `getBoundingClientRect()` of the container. */
  datatype Rect = Rect(left: real, top: real, width: real, height: real)

  /** The cursor in percent of the container, or a non-finite value (Infinity or NaN)
      when the container has zero width or height. */
  datatype Pointer = At(x: real, y: real) | NonFinite

  function PointerPercent(clientX: real, clientY: real, rect: Rect): (ptr: Pointer)
    ensures ptr.NonFinite? <==> rect.width == 0.0 || rect.height == 0.0
    ensures ptr.At? ==> rect.left + ptr.x / 100.0 * rect.width == clientX
    ensures ptr.At? ==> rect.top + ptr.y / 100.0 * rect.height == clientY
  {
    if rect.width == 0.0 || rect.height == 0.0 then NonFinite
    else At((clientX - rect.left) / rect.width * 100.0, (clientY - rect.top) / rect.height * 100.0)
  }

  /** `Math.sqrt(dx * dx + dy * dy) < 20`, squared. */
  predicate Near(p: Particle, ptr: Pointer)
    ensures Near(p, ptr) ==> ptr.At? && -20.0 < p.left - ptr.x < 20.0 && -20.0 < p.top - ptr.y < 20.0
  {
    ptr.At? && (p.left - ptr.x) * (p.left - ptr.x) + (p.top - ptr.y) * (p.top - ptr.y) < 400.0
  }

  /** The handler's effect on one particle: pushed away with a 0.3 s transition when the
      cursor is within 20% of its base position, otherwise back to `translate(0, 0)` with
      a 0.5 s transition; nothing but `transform` and `transition` changes. */
  function Repel(p: Particle, ptr: Pointer): (q: Particle)
    ensures q.(transform := p.transform, transition := p.transition) == p
    ensures Near(p, ptr) ==> q.transform == PushAway(p.left - ptr.x, p.top - ptr.y) && q.transition == Some(0.3)
    ensures !Near(p, ptr) ==> q.transform == Rest && q.transition == Some(0.5)
  {
    if Near(p, ptr) then p.(transform := PushAway(p.left - ptr.x, p.top - ptr.y), transition := Some(0.3))
    else p.(transform := Rest, transition := Some(0.5))
  }

  /** The handler's effect on all particles. */
  function RepelAll(ps: seq<Particle>, ptr: Pointer): (qs: seq<Particle>)
    ensures |qs| == |ps|
    ensures forall k :: 0 <= k < |ps| ==> qs[k] == Repel(ps[k], ptr)
  {
    seq(|ps|, k requires 0 <= k < |ps| => Repel(ps[k], ptr))
  }

  /** The decision reads only base positions, which the handler never writes, so the
      same event handled twice (or by two listeners) gives the same state as once. */
  lemma RepelIdempotent(ps: seq<Particle>, ptr: Pointer)
    ensures RepelAll(RepelAll(ps, ptr), ptr) == RepelAll(ps, ptr)
  {
    var once := RepelAll(ps, ptr);
    forall k | 0 <= k < |ps| ensures RepelAll(once, ptr)[k] == once[k] {
      assert once[k].left == ps[k].left && once[k].top == ps[k].top;
    }
  }

  /** With a zero-sized container every particle returns to rest. */
  lemma NonFiniteResetsAll(ps: seq<Particle>, clientX: real, clientY: real, rect: Rect)
    requires rect.width == 0.0 || rect.height == 0.0
    ensures forall q :: q in RepelAll(ps, PointerPercent(clientX, clientY, rect)) ==>
              (q.transform == Rest && q.transition == Some(0.5))
  {
  }

  /** The mousemove listener. */
  method OnMouseMove(container: Container, clientX: real, clientY: real, rect: Rect)
    modifies container
    ensures container.children == RepelAll(old(container.children), PointerPercent(clientX, clientY, rect))
    ensures container.mousemoveListeners == old(container.mousemoveListeners)
  {
    var ptr := PointerPercent(clientX, clientY, rect);
    var k := 0;
    while k < |container.children|
      invariant 0 <= k <= |container.children| == |old(container.children)|
      invariant forall j :: 0 <= j < k ==> container.children[j] == Repel(old(container.children)[j], ptr)
      invariant forall j :: k <= j < |container.children| ==> container.children[j] == old(container.children)[j]
      invariant container.mousemoveListeners == old(container.mousemoveListeners)
    {
      container.children := container.children[k := Repel(container.children[k], ptr)];
      k := k + 1;
    }
  }
}
