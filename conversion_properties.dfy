/** Round trips of the conversion: nothing the stored record keeps is lost or altered. */
module ConversionProperties {
  import opened Wrappers
  import opened Constants
  import opened Records
  import opened Conversion

  lemma AircraftRoundTrip(a: Aircraft)
    ensures ToAircraft(AircraftToJson(a)) == Success(a)
  {
    match a.wakeTurbulence
    case H =>
    case J =>
    case L =>
    case M =>
  }

  lemma TrackRoundTrip(t: PilotTrack)
    ensures ToTrack(TrackToJson(t)) == Success(t)
  {
  }
}
