/**
 * The values a module settings form keeps for options it has not yet saved,
 * and the history of edits that produces them.
 */
module Options {

  /** A value as the form sees it: a checkbox's boolean, a text or select
      control's string, or JavaScript's `undefined`. */
  datatype Value = Bool(b: bool) | Str(s: string) | Undefined

  /** `typeof v !== 'undefined'` */
  predicate Defined(v: Value) {
    !v.Undefined?
  }

  /** The form's `state.options`: option name to pending value. */
  type Pending = map<string, Value>

  /** One recorded edit: the option's name and the value given to it. */
  datatype Edit = Edit(name: string, value: Value)

  /** The pending map a sequence of edits builds from an empty one; each edit
      spreads the old map and then sets its own key, so later edits win. */
  function Replay(edits: seq<Edit>): Pending
  {
    if edits == [] then map[]
    else
      var last := edits[|edits| - 1];
      Replay(edits[..|edits| - 1])[last.name := last.value]
  }

  /** Every name some edit in the sequence sets. */
  ghost function EditedNames(edits: seq<Edit>): set<string>
  {
    set i | 0 <= i < |edits| :: edits[i].name
  }

  /** Edit `i` is the last one in the sequence that sets `name`. */
  ghost predicate IsLastEdit(edits: seq<Edit>, name: string, i: int)
  {
    && 0 <= i < |edits|
    && edits[i].name == name
    && forall j :: i < j < |edits| ==> edits[j].name != name
  }

  /** The pending map holds exactly the names that were edited. */
  lemma {:induction false} ReplayKeys(edits: seq<Edit>)
    ensures Replay(edits).Keys == EditedNames(edits)
  {
    if edits != [] {
      var init := edits[..|edits| - 1];
      ReplayKeys(init);
      assert EditedNames(edits) == EditedNames(init) + {edits[|edits| - 1].name} by {
        forall n | n in EditedNames(edits) ensures n in EditedNames(init) + {edits[|edits| - 1].name} {
          var i :| 0 <= i < |edits| && edits[i].name == n;
          if i < |edits| - 1 {
            assert init[i] == edits[i];
          }
        }
        forall n | n in EditedNames(init) ensures n in EditedNames(edits) {
          var i :| 0 <= i < |init| && init[i].name == n;
          assert edits[i] == init[i];
        }
      }
    }
  }

  /** For every edited name, the pending value is the one its last edit gave. */
  lemma {:induction false} ReplayLastEditWins(edits: seq<Edit>, name: string)
    ensures forall i :: IsLastEdit(edits, name, i) ==>
      name in Replay(edits) && Replay(edits)[name] == edits[i].value
  {
    forall i | IsLastEdit(edits, name, i)
      ensures name in Replay(edits) && Replay(edits)[name] == edits[i].value
    {
      if i < |edits| - 1 {
        var init := edits[..|edits| - 1];
        assert IsLastEdit(init, name, i) by {
          forall j | i < j < |init| ensures init[j].name != name {
            assert init[j] == edits[j];
          }
        }
        ReplayLastEditWins(init, name);
      }
    }
  }
}
