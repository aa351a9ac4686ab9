/** The stored configuration and the pure questions asked of it (`Config`, `valid_config`,
    `effective_position_basis`, `effective_outage_policy`). */
module Settings {
  /** A C `double` used as a coordinate: only finiteness and order matter here. */
  datatype Coord = NotFinite | Deg(deg: real)

  datatype AutoState = Unknown | Away | Home

  const GPS_SOURCE := 0
  const VEHICLE_REPORT := 1
  const EXPIRE := 0
  const HOLD_LAST := 1

  /** `vin` is the text before the terminating NUL of the 18-byte field. The basis and outage
      fields are the raw stored bytes, which may hold values outside the two enumerations. */
  datatype Config = Config(
    version: nat, vin: string, homeLat: Coord, homeLon: Coord,
    enableM: nat, disableM: nat, maxAgeS: nat, futureS: nat, leaseS: nat, sleepS: nat,
    pollS: nat, dwellS: nat, dailyCap: nat, monthlyCap: nat,
    commissioned: bool, disabled: bool, dryRun: bool,
    region: nat, positionBasis: nat, outagePolicy: nat)
  {
    function Basis(): nat { if version == 1 then GPS_SOURCE else positionBasis }

    function Outage(): nat { if version < 3 then EXPIRE else outagePolicy }

    predicate Expires() { Outage() == EXPIRE }

    predicate Holds() { Outage() == HOLD_LAST }

    predicate Valid() {
      && (version == 1 || (version == 2 && positionBasis <= 1) ||
          (version == 3 && positionBasis <= 1 && outagePolicy <= 1))
      && ValidVin(vin)
      && InRange(homeLat, 90.0) && InRange(homeLon, 180.0)
      && 10 <= enableM < disableM <= 10000
      && 1 <= maxAgeS <= 600 && futureS <= 30
      && 60 <= leaseS <= 900 && leaseS <= sleepS <= 86400
      && 60 <= pollS <= 3600 && 30 <= dwellS <= 600
      && 1 <= dailyCap <= 10000 && 1 <= monthlyCap <= 310000 && region <= 1
    }
  }

  lemma ValidIgnoresDisabled(c: Config)
    ensures c.(disabled := true).Valid() == c.Valid()
  {
  }

  /** The UTC seconds between which a fix may have been taken: the years 2020 to 2099. */
  const EARLIEST_SOURCE := 1577836800
  const LATEST_SOURCE := 4102444800

  const FACTORY := Config(3, "", Deg(0.0), Deg(0.0), 100, 200, 120, 30, 900, 86400, 600, 30, 400, 12000,
                          false, true, true, 0, GPS_SOURCE, EXPIRE)

  predicate ValidVin(s: string) {
    |s| == 17 && forall i | 0 <= i < 17 ::
      ('A' <= s[i] <= 'Z' && s[i] != 'I' && s[i] != 'O' && s[i] != 'Q') || '0' <= s[i] <= '9'
  }

  predicate InRange(c: Coord, bound: real) {
    c.Deg? && -bound <= c.deg <= bound
  }
}
