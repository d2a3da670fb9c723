/** What both Discord handlers read out of an interaction: the action named by
    a component's custom id, and the text typed into a modal's `context`
    input. */
module Interaction {
  import opened Wrappers
  import opened Text

  /** A component of a modal's action row: a text input, with its id and the
      value typed (absent when nothing was entered), or anything else. */
  datatype Component = InputText(customId: string, value: Option<string>) | OtherComponent

  /** The custom id split at its first ':' into the action and the id. */
  function SplitCustomId(customId: string): (r: Option<(string, string)>)
    ensures r.None? <==> ':' !in customId
    ensures r.Some? ==> customId == r.value.0 + ":" + r.value.1 && ':' !in r.value.0
  {
    SplitOnce(customId, ':')
  }

  /** A custom id built as action, ':', id splits back into the two, whatever
      the id holds, as long as the action has no ':'. */
  lemma {:induction false} SplitCustomIdOfBuilt(action: string, id: string)
    requires ':' !in action
    ensures SplitCustomId(action + ":" + id) == Some((action, id))
  {
    SplitOnceOfJoined(action, ':', id);
    assert action + ":" + id == action + [':'] + id;
  }

  predicate IsContextInput(c: Component) {
    c.InputText? && c.customId == "context"
  }

  /** The value a context input contributes: what was typed, or "". */
  function InputValue(c: Component): string
    requires c.InputText?
  {
    match c.value
    case Some(v) => v
    case None => ""
  }

  /** The reference definition: the value of the LAST context input among
      the components, in row order. */
  function LastContextValue(cs: seq<Component>): (r: Option<string>)
    ensures r.None? <==> forall i :: 0 <= i < |cs| ==> !IsContextInput(cs[i])
    ensures r.Some? ==> exists i :: 0 <= i < |cs| && IsContextInput(cs[i]) && r.value == InputValue(cs[i])
                                    && forall j :: i < j < |cs| ==> !IsContextInput(cs[j])
    decreases |cs|
  {
    if cs == [] then None
    else if IsContextInput(cs[|cs| - 1]) then Some(InputValue(cs[|cs| - 1]))
    else
      var r := LastContextValue(cs[..|cs| - 1]);
      assert forall i :: 0 <= i < |cs| - 1 ==> cs[..|cs| - 1][i] == cs[i];
      r
  }

  /** All components, row after row. */
  function Flatten(rows: seq<seq<Component>>): (cs: seq<Component>)
    decreases |rows|
  {
    if rows == [] then [] else Flatten(rows[..|rows| - 1]) + rows[|rows| - 1]
  }

  /** One more component: a context input takes over, anything else leaves
      the value found so far. */
  lemma LastContextValueSnoc(cs: seq<Component>, c: Component)
    ensures LastContextValue(cs + [c]) == if IsContextInput(c) then Some(InputValue(c)) else LastContextValue(cs)
  {
    assert (cs + [c])[..|cs|] == cs;
  }

  /** One more row: its components follow those before it. */
  lemma FlattenSnoc(rows: seq<seq<Component>>, r: nat)
    requires r < |rows|
    ensures Flatten(rows[..r + 1]) == Flatten(rows[..r]) + rows[r]
  {
    assert rows[..r + 1][..r] == rows[..r];
  }

  /** The scan over rows and components: every context input overwrites the
      value found so far. */
  method FindContextValue(rows: seq<seq<Component>>) returns (value: Option<string>)
    ensures value == LastContextValue(Flatten(rows))
  {
    value := None;
    for r := 0 to |rows|
      invariant value == LastContextValue(Flatten(rows[..r]))
    {
      var row := rows[r];
      ghost var before := Flatten(rows[..r]);
      assert before + row[..0] == before;
      for c := 0 to |row|
        invariant value == LastContextValue(before + row[..c])
      {
        var component := row[c];
        assert before + row[..c + 1] == (before + row[..c]) + [component];
        LastContextValueSnoc(before + row[..c], component);
        if component.InputText? && component.customId == "context" {
          value := Some(InputValue(component));
        }
      }
      assert row[..|row|] == row;
      FlattenSnoc(rows, r);
    }
    assert rows[..|rows|] == rows;
  }

  /** A modal with no context input yields none; otherwise the last one wins,
      and an input left empty counts as "". */
  lemma {:induction false} ContextValueExamples()
    ensures LastContextValue([InputText("context", Some("a")), InputText("context", None)]) == Some("")
    ensures LastContextValue([InputText("other", Some("a")), OtherComponent]) == None
  {
    var cs := [InputText("context", Some("a")), InputText("context", None)];
    assert IsContextInput(cs[1]);
    var ds: seq<Component> := [InputText("other", Some("a")), OtherComponent];
    assert !IsContextInput(ds[0]) && !IsContextInput(ds[1]);
  }
}
