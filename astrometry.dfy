/**
 * Astrometry lookup (`buscar_dados_simbad`): one query to the SIMBAD
 * coordinate service for the resolved identifier, and the fixed table
 * `DADOS_FIXOS` when that query fails or its answer lacks RA or DEC.
 *
 * The service is a parameter: a function from the identifier queried to
 * the reply it gives.
 */
module Astrometry {
  import opened Wrappers
  import opened Catalog

  /** One astrometric record: sexagesimal RA and DEC, and the distance in
      parsecs and in light-years when known. */
  datatype AstroRecord = AstroRecord(ra: string, dec: string, distPc: Option<real>, distLy: Option<real>)

  /** What `Simbad.query_object` does: it raises (network error, timeout,
      malformed answer), answers with nothing (`None` or an empty table), or
      answers with a table whose column names are `colnames` and whose first
      row holds `ra`, `dec` and `distance` (the last meaningful only when a
      `Distance_distance` column exists). */
  datatype SimbadReply =
    | Raised
    | NoResult
    | Table(colnames: seq<string>, ra: string, dec: string, distance: real)

  const LightYearsPerParsec: real := 3.26156

  /** The three records of `DADOS_FIXOS`. The source writes the parsec
      distances as integers (1001, 720, 870); here they are the equal reals,
      so a fixed record and a remote one of the same distance look alike. */
  const FixedData: map<string, AstroRecord> := map[
    "NGC 6543" := AstroRecord("17 58 33.4", "+66 37 59", Some(1001.0), Some(3266.5)),
    "NGC 6720" := AstroRecord("18 53 35.1", "+33 01 45", Some(720.0), Some(2350.3)),
    "NGC 2392" := AstroRecord("07 29 10.8", "+20 54 42", Some(870.0), Some(2837.6))
  ]

  /** The reply is a non-empty table with both an `RA` and a `DEC` column. */
  predicate Usable(reply: SimbadReply) {
    reply.Table? && "RA" in reply.colnames && "DEC" in reply.colnames
  }

  /** The record built from a usable reply. The parsec distance is present
      exactly when the table has a `Distance_distance` column; the light-year
      distance is derived from it unless it is zero (Python's falsy test). */
  function RemoteRecord(reply: SimbadReply): (r: AstroRecord)
    requires Usable(reply)
    ensures r.ra == reply.ra && r.dec == reply.dec
    ensures r.distPc.Some? <==> "Distance_distance" in reply.colnames
    ensures r.distPc.Some? ==> r.distPc.value == reply.distance
    ensures r.distLy.Some? <==> r.distPc.Some? && r.distPc.value != 0.0
    ensures r.distLy.Some? ==> r.distLy.value == r.distPc.value * LightYearsPerParsec
  {
    var pc := if "Distance_distance" in reply.colnames then Some(reply.distance) else None;
    var ly := if pc.Some? && pc.value != 0.0 then Some(pc.value * LightYearsPerParsec) else None;
    AstroRecord(reply.ra, reply.dec, pc, ly)
  }

  /** `buscar_dados_simbad(name)` with the SIMBAD service `simbad`. There is
      no data exactly when the remote answer is unusable and the resolved
      identifier has no fixed record. */
  function LookupAstrometry(name: string, simbad: string -> SimbadReply): (r: Option<AstroRecord>)
    ensures r.None? <==> !Usable(simbad(ResolveName(name))) && ResolveName(name) !in FixedData
  {
    var id := ResolveName(name);
    var reply := simbad(id);
    if Usable(reply) then Some(RemoteRecord(reply))
    else if id in FixedData then Some(FixedData[id])
    else None
  }

  /** A usable reply for the resolved identifier is returned as it came. */
  lemma LookupPrefersRemote(name: string, simbad: string -> SimbadReply)
    requires Usable(simbad(ResolveName(name)))
    ensures LookupAstrometry(name, simbad) == Some(RemoteRecord(simbad(ResolveName(name))))
  {
  }

  /** Otherwise (exception, empty answer, RA or DEC missing) the fixed record of
      the resolved identifier is returned when there is one, and nothing
      otherwise. */
  lemma LookupFallsBack(name: string, simbad: string -> SimbadReply)
    requires !Usable(simbad(ResolveName(name)))
    ensures ResolveName(name) in FixedData ==>
      LookupAstrometry(name, simbad) == Some(FixedData[ResolveName(name)])
    ensures ResolveName(name) !in FixedData ==> LookupAstrometry(name, simbad) == None
  {
  }

  /** With the service down, the Cat's Eye, Ring and Eskimo nebulae still get
      their fixed records, reached through their popular names. */
  lemma OfflineFixedRecords(simbad: string -> SimbadReply)
    requires forall id :: simbad(id) == Raised
    ensures LookupAstrometry("Cat's Eye Nebula", simbad) == Some(FixedData["NGC 6543"])
    ensures LookupAstrometry("Ring Nebula", simbad) == Some(FixedData["NGC 6720"])
    ensures LookupAstrometry("Eskimo Nebula", simbad) == Some(FixedData["NGC 2392"])
    ensures LookupAstrometry("NGC 6543", simbad) == Some(FixedData["NGC 6543"])
    ensures LookupAstrometry("Helix Nebula", simbad) == None
  {
  }

  /** The fixed records do not follow the parsec-to-light-year derivation that
      remote records follow: their light-year values were entered separately. */
  lemma FixedDataNotDerived()
    ensures forall id :: id in FixedData ==>
      FixedData[id].distLy.value != FixedData[id].distPc.value * LightYearsPerParsec
  {
  }
}
