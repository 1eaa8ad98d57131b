/** The agent profiles the widget connects to, and the query string the hook
    builds for the relay's connect endpoint. */
module Agents {

  datatype AgentType =
    | Allergy | Dermatologist | GeneralPhysician | Neurology
    | Urology | PhysicalTherapist | Cardiovascular

  /** The string value of each `AgentType` member, which is what travels as
      `voiceAgentName`. */
  function AgentId(t: AgentType): (id: string)
    ensures id != ""
  {
    match t
    case Allergy => "ALLERGY"
    case Dermatologist => "DERMATOLOGIST"
    case GeneralPhysician => "GENERAL_PHYSICIAN"
    case Neurology => "NEUROLOGY"
    case Urology => "UROLOGY"
    case PhysicalTherapist => "PHYSICAL_THERAPIST"
    case Cardiovascular => "CARDIOVASCULAR"
  }

  /** Distinct agents travel under distinct names. */
  lemma AgentIdInjective(a: AgentType, b: AgentType)
    requires AgentId(a) == AgentId(b)
    ensures a == b
  {
  }

  /** The fields of an agent profile the connection uses. */
  datatype AgentProfile = AgentProfile(id: AgentType, name: string, systemInstruction: string, voiceName: string)

  /** The query parameters `connect` sends to the relay, in the order the
      `URLSearchParams` literal lists them. */
  function ConnectQuery(agent: AgentProfile): seq<(string, string)> {
    [("voiceAgentName", AgentId(agent.id)), ("systemInstruction", agent.systemInstruction), ("voiceName", agent.voiceName)]
  }
}
