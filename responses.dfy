/** The agent's canned answers, one per response type, and the lookup that
    falls back to the general answer. */
module Responses {
  import opened Classifier

  const HydraulicAnswer: string :=
    "Applying Leonardo's observations on fluid dynamics: Water follows the path of least resistance, creating vortices and eddies that can be harnessed. For your portable pump system, consider implementing an Archimedean screw mechanism combined with modern materials. The spiral geometry provides continuous flow with minimal energy input, much like Leonardo's canal lock designs. I've referenced his Codex Atlanticus folios 26v-27r on hydraulic machines. Would you like me to elaborate on the pressure differential calculations or focus on the mechanical design?"

  const BiomechanicalAnswer: string :=
    "Leonardo's anatomical studies reveal that human joints operate through an elegant system of levers and pulleys. For your exoskeleton design, I suggest mimicking the natural antagonistic muscle pairs - particularly the biceps-triceps relationship documented in his Windsor anatomical manuscripts. Using tensioned cables running through guides at joint fulcrums can provide both power amplification and natural movement patterns. The key insight from folio 19037r: force multiplication occurs when the artificial 'tendons' attach further from the joint center than natural ones. Shall we explore the load distribution across multiple joints?"

  const BiomedicalAnswer: string :=
    "Leonardo's studies of blood flow in the Codex Leicester demonstrate his understanding of circulatory dynamics centuries before Harvey. For your wearable device, consider his observation that blood flow creates specific pressure patterns at arterial branches. Modern piezoelectric sensors placed at these bifurcation points - wrist, carotid, and temporal arteries - can capture rich cardiovascular data. Leonardo's drawings in RL 19073v-19074r show the heart's spiral muscle structure, suggesting rotational flow patterns we can now measure. Would you like specifics on sensor placement or data interpretation algorithms?"

  const StructuralAnswer: string :=
    "Leonardo understood that nature achieves maximum strength with minimum material - his studies of bird bones in Codex on Flight reveal hollow structures with internal struts. For your tensegrity bridge, combine this principle with his force diagram methods from Codex Madrid I. Continuous tension elements (cables) and discontinuous compression elements (struts) create a self-stabilizing structure. Using bamboo for compression members and hemp cables for tension follows his preference for organic materials. Reference his Codex Arundel 263 for geometric proportions. Should we calculate the optimal strut-to-cable ratios?"

  const GeneralAnswer: string :=
    "Your inquiry touches on the intersection of multiple disciplines - precisely where Leonardo's genius thrived. He saw no boundaries between art, science, and engineering. Let me analyze your challenge through his methodology: First, careful observation of natural phenomena; Second, mathematical analysis of underlying principles; Third, innovative mechanical solutions; Fourth, aesthetic refinement. Which aspect would you like to explore first? I can reference specific codices and manuscripts relevant to your particular challenge."

  /** The canned answer written for each topic. */
  function Canned(t: Topic): string {
    match t
    case Hydraulic => HydraulicAnswer
    case Biomechanical => BiomechanicalAnswer
    case Biomedical => BiomedicalAnswer
    case Structural => StructuralAnswer
    case General => GeneralAnswer
  }

  /** The response object, keyed by response-type string. */
  const ResponseTable: map<string, string> := map[
    Tag(Hydraulic) := HydraulicAnswer,
    Tag(Biomechanical) := BiomechanicalAnswer,
    Tag(Biomedical) := BiomedicalAnswer,
    Tag(Structural) := StructuralAnswer,
    Tag(General) := GeneralAnswer
  ]

  /** `text` is one of the canned answers. */
  ghost predicate IsCanned(text: string) {
    exists t :: text == Canned(t)
  }

  /** `this.responses[responseType] || this.responses.general`: the entry
      for the response type unless it is missing or empty, the general entry
      otherwise. */
  function Lookup(responses: map<string, string>, responseType: string): string
    requires Tag(General) in responses
  {
    if responseType in responses && responses[responseType] != "" then responses[responseType]
    else responses[Tag(General)]
  }

  /** The lookup in the agent's own table. Every key gets a non-empty canned
      answer: the topic's own for the five response-type strings, the general
      one for any other key. */
  function ResponseFor(responseType: string): (r: string)
    ensures forall t :: responseType == Tag(t) ==> r == Canned(t)
    ensures (forall t :: responseType != Tag(t)) ==> r == Canned(General)
    ensures IsCanned(r) && r != ""
  {
    Lookup(ResponseTable, responseType)
  }

  /** A typed message about a portable water pump gets the hydraulic answer. */
  lemma PortablePumpAnswer(s: string)
    requires s == "I need a portable water pump"
    ensures ResponseFor(Tag(ClassifyText(s))) == HydraulicAnswer
  {
    PortablePumpTyped(s);
  }
}
