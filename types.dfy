// The wizard's shared record types (types.ts) and the two failure-carrying
// wrappers the rest of the model uses for thrown errors and `undefined`.
module Types {

  datatype Option<+T> = None | Some(value: T)

  /** A call that either returns a value or throws with a message. */
  datatype Result<+T> = Success(value: T) | Failure(error: string)

  /** The seven wizard states, declared in the order of the TypeScript enum. */
  datatype AppState =
    | INITIAL
    | IMPROVING_PROMPT
    | SUGGESTING_FEATURES
    | FEATURES_READY
    | GENERATING_UI
    | UI_READY
    | ERROR

  /** One choice inside a category: a name and a description, nothing else. */
  datatype FeatureOption = FeatureOption(name: string, description: string)

  /** A category with its ordered options; the type does not bound how many. */
  datatype FeatureCategory = FeatureCategory(category: string, description: string, options: seq<FeatureOption>)

  /** A selection refers to its category and option by name only. */
  datatype SelectedFeature = SelectedFeature(category: string, selectedOption: string)

  /** The numeric value TypeScript gives each enum member. */
  function Ordinal(s: AppState): (n: nat)
    ensures n < 7
    ensures n == 6 <==> s == ERROR
  {
    match s
    case INITIAL => 0
    case IMPROVING_PROMPT => 1
    case SUGGESTING_FEATURES => 2
    case FEATURES_READY => 3
    case GENERATING_UI => 4
    case UI_READY => 5
    case ERROR => 6
  }

  /** The seven members are pairwise distinct. */
  lemma OrdinalInjective(a: AppState, b: AppState)
    ensures Ordinal(a) == Ordinal(b) <==> a == b
  {
  }

  /** One move forward: to the next state in declaration order, or a failure into ERROR. */
  predicate Proceeds(from: AppState, to: AppState)
  {
    (to != ERROR && Ordinal(to) == Ordinal(from) + 1) || to == ERROR
  }

  /** One move of the whole wizard: a move forward, or the manual reset to INITIAL. */
  predicate Advances(from: AppState, to: AppState)
  {
    Proceeds(from, to) || to == INITIAL
  }

  /** Every consecutive pair of the sequence is one move of the wizard. */
  predicate IsWizardWalk(states: seq<AppState>)
  {
    forall i :: 0 < i < |states| ==> Advances(states[i - 1], states[i])
  }

  /** Every consecutive pair of the sequence is a move forward: no reset anywhere. */
  predicate IsForwardRun(states: seq<AppState>)
  {
    forall i :: 0 < i < |states| ==> Proceeds(states[i - 1], states[i])
  }
}
