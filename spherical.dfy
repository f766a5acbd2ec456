/**
 * Angular coordinates of package coord (coord.go:85-112, 132-136, 164-178):
 * equatorial coordinates (right ascension, declination) and general spherical
 * coordinates (longitude, latitude), with the conversions between them and
 * cartesian vectors, one element at a time.
 *
 * The conversions call math.Sincos, math.Atan2 and math.Asin, and the angle
 * types of the external package unit. None of these is part of this model: they
 * are the fields of a `Lib` value that every conversion takes as a parameter,
 * so the conversions are exact compositions of routines whose values are not
 * known here.
 */
module Spherical {
  import opened Cartesian

  /** The routines the conversions call, all on radians. */
  datatype Lib = Lib(
    sin: real -> real,              // the sine half of unit.Angle.Sincos
    cos: real -> real,              // the cosine half of unit.Angle.Sincos
    atan2: (real, real) -> real,    // math.Atan2(y, x)
    asin: real -> real,             // math.Asin
    raFromRad: real -> real,        // unit.RAFromRad: a radian value as a right ascension
    raAngle: real -> real)          // unit.RA.Angle: a right ascension as an angle

  /** Equa: right ascension and declination, in radians. */
  datatype Equa = Equa(ra: real, dec: real)

  /** Sphr: longitude and latitude, in radians. */
  datatype Sphr = Sphr(lon: real, lat: real)

  /** Whether lib's sine and cosine satisfy sin² + cos² = 1 at t. */
  predicate Pythagorean(lib: Lib, t: real)
  {
    lib.sin(t) * lib.sin(t) + lib.cos(t) * lib.cos(t) == 1.0
  }

  /** Cart.FromSphr: the cartesian vector (cos lat cos lon, cos lat sin lon, sin lat). */
  function CartFromSphr(lib: Lib, s: Sphr): Vec
  {
    var sLon, cLon := lib.sin(s.lon), lib.cos(s.lon);
    var sLat, cLat := lib.sin(s.lat), lib.cos(s.lat);
    Vec(cLat * cLon, cLat * sLon, sLat)
  }

  /** Sphr.FromEqua: longitude is the right ascension as an angle; latitude is the declination. */
  function SphrFromEqua(lib: Lib, e: Equa): Sphr
  {
    Sphr(lib.raAngle(e.ra), e.dec)
  }

  /** Sphr.FromCart: longitude atan2(Y, X), latitude asin(Z), with no normalisation. */
  function SphrFromCart(lib: Lib, c: Vec): Sphr
  {
    Sphr(lib.atan2(c.y, c.x), lib.asin(c.z))
  }

  /** Equa.FromCart: right ascension RAFromRad(atan2(Y, X)), declination asin(Z). */
  function EquaFromCart(lib: Lib, c: Vec): Equa
  {
    Equa(lib.raFromRad(lib.atan2(c.y, c.x)), lib.asin(c.z))
  }

  /**
   * FromSphr gives a unit vector whenever the sine and cosine it is given
   * satisfy sin² + cos² = 1 at the longitude and at the latitude.
   */
  lemma CartFromSphrIsUnit(lib: Lib, s: Sphr)
    requires Pythagorean(lib, s.lon) && Pythagorean(lib, s.lat)
    ensures CartFromSphr(lib, s).Square() == 1.0
  {
  }

  /** FromEqua followed by FromSphr gives a unit vector under the same condition. */
  lemma CartFromEquaIsUnit(lib: Lib, e: Equa)
    requires Pythagorean(lib, lib.raAngle(e.ra)) && Pythagorean(lib, e.dec)
    ensures CartFromSphr(lib, SphrFromEqua(lib, e)).Square() == 1.0
  {
  }

  /**
   * On the meridian of longitude 0, where sin is 0 and cos is 1, FromSphr gives
   * (cos lat, 0, sin lat): the package's example with latitude 30° prints
   * (0.866, 0, 0.5).
   */
  lemma CartFromSphrOnPrimeMeridian(lib: Lib, lat: real)
    requires lib.sin(0.0) == 0.0 && lib.cos(0.0) == 1.0
    ensures CartFromSphr(lib, Sphr(0.0, lat)) == Vec(lib.cos(lat), 0.0, lib.sin(lat))
  {
  }
}
