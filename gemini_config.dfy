/** The voice enumeration of the Gemini live configuration. */
module GeminiConfig {
  import opened Wrappers

  /** The five prebuilt voices; `VoiceName` is exactly this set of names. */
  datatype VoiceName = Puck | Charon | Kore | Fenrir | Aoede

  /** The names in the order the `Voices` constant lists them. */
  const Voices: seq<string> := ["Puck", "Charon", "Kore", "Fenrir", "Aoede"]

  /** The string a voice is sent as. */
  function Name(v: VoiceName): (s: string)
    ensures s in Voices
  {
    match v
    case Puck => "Puck"
    case Charon => "Charon"
    case Kore => "Kore"
    case Fenrir => "Fenrir"
    case Aoede => "Aoede"
  }

  /** Reads a voice back from its name; only the five listed names are voices. */
  function Parse(s: string): (r: Option<VoiceName>)
    ensures r.Some? <==> s in Voices
    ensures r.Some? ==> Name(r.value) == s
  {
    if s == "Puck" then Some(Puck)
    else if s == "Charon" then Some(Charon)
    else if s == "Kore" then Some(Kore)
    else if s == "Fenrir" then Some(Fenrir)
    else if s == "Aoede" then Some(Aoede)
    else None
  }

  /** Every voice survives the trip to its name and back, so distinct voices
      have distinct names. */
  lemma ParseName(v: VoiceName)
    ensures Parse(Name(v)) == Some(v)
  {
  }

}
