/**
 The four selections of a blocked thread (src/select.rs) and their encoding in one
 machine word. Operations are numbers above the words of the other three.
 */
module Select {
  datatype Selected = Waiting | Aborted | Disconnected | Operation(oper: nat)

  /** Operations are numbered above the words of the other three. */
  predicate IsOper(oper: nat) { oper > 2 }

  function WordOf(s: Selected): nat {
    match s
    case Waiting => 0
    case Aborted => 1
    case Disconnected => 2
    case Operation(oper) => oper
  }

  function SelectedOf(word: nat): Selected {
    if word == 0 then Waiting else if word == 1 then Aborted else if word == 2 then Disconnected else Operation(word)
  }

  /** No selection is taken for another, exactly because operations are above 2. */
  lemma SelectedRoundTrip(s: Selected)
    ensures SelectedOf(WordOf(s)) == s <==> (s.Operation? ==> IsOper(s.oper))
  {
  }
}
