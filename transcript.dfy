/** The transcript part of a call-client update: a list of turns, of which only the last
    turn of each role is kept. */
module Transcript {
  import opened Options

  /** One turn of an update's `transcript` array. */
  datatype Turn = Turn(role: string, content: string)

  /** The content of the last turn spoken by `role`, scanning from the end; None if `role`
      never speaks. */
  function LastSpoken(turns: seq<Turn>, role: string): Option<string>
    decreases |turns|
  {
    if turns == [] then None
    else if turns[|turns| - 1].role == role then Some(turns[|turns| - 1].content)
    else LastSpoken(turns[..|turns| - 1], role)
  }

  /** When turn k is the last one with its role, its content is what is kept for that role. */
  lemma {:induction false} LastSpokenAt(turns: seq<Turn>, k: nat)
    requires k < |turns|
    requires forall j :: k < j < |turns| ==> turns[j].role != turns[k].role
    ensures LastSpoken(turns, turns[k].role) == Some(turns[k].content)
    decreases |turns|
  {
    if k < |turns| - 1 {
      LastSpokenAt(turns[..|turns| - 1], k);
    }
  }

  /** Nothing is kept for a role exactly when no turn has that role. */
  lemma {:induction false} LastSpokenNone(turns: seq<Turn>, role: string)
    ensures LastSpoken(turns, role) == None <==> forall j :: 0 <= j < |turns| ==> turns[j].role != role
    decreases |turns|
  {
    if turns != [] {
      LastSpokenNone(turns[..|turns| - 1], role);
    }
  }

  /** The `forEach` of the update handler: fills a record from role to content, so that a later
      turn overwrites an earlier one of the same role. A role is a key exactly when some turn
      has it, and its value is the content of its last turn. */
  method CollectByRole(turns: seq<Turn>) returns (m: map<string, string>)
    ensures forall role :: LastSpoken(turns, role) == if role in m then Some(m[role]) else None
  {
    m := map[];
    var i := 0;
    while i < |turns|
      invariant 0 <= i <= |turns|
      invariant forall role :: LastSpoken(turns[..i], role) == if role in m then Some(m[role]) else None
    {
      assert turns[..i + 1][..i] == turns[..i];
      m := m[turns[i].role := turns[i].content];
      i := i + 1;
    }
    assert turns[..|turns|] == turns;
  }
}
