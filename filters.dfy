/** filter.go: FilterOut, a set of messages a logger's exclude function can
    suppress. */
module Filters {
  import opened Values
  import opened Levels

  /** The messages a `map[string]struct{}` holds; a nil map holds none. */
  function Members(m: Option<set<string>>): set<string> {
    if m.Some? then m.value else {}
  }

  /** The map after adding `msg`, allocated if it was nil. */
  function Inserted(m: Option<set<string>>, msg: string): (r: Option<set<string>>)
    ensures r.Some? && msg in Members(r)
    ensures forall x :: x != msg ==> (x in Members(r) <==> x in Members(m))
  {
    Some(Members(m) + {msg})
  }

  /** Adding a message twice is adding it once. */
  lemma InsertIdempotent(m: Option<set<string>>, msg: string)
    ensures Inserted(Inserted(m, msg), msg) == Inserted(m, msg)
  {
    assert Members(Inserted(m, msg)) + {msg} == Members(Inserted(m, msg));
  }

  /** The map after adding each of `msgs`, in order. */
  function AddedAll(m: Option<set<string>>, msgs: seq<string>): Option<set<string>> {
    if |msgs| == 0 then m else Inserted(AddedAll(m, msgs[..|msgs| - 1]), msgs[|msgs| - 1])
  }

  /** After any sequence of Adds, a message is in the set exactly when it
      was there before or was one of those added, whatever the order; with
      no Add a nil map stays nil. */
  lemma {:induction false} AddedAllMembers(m: Option<set<string>>, msgs: seq<string>, x: string)
    ensures x in Members(AddedAll(m, msgs)) <==> x in Members(m) || x in msgs
    ensures |msgs| > 0 ==> AddedAll(m, msgs).Some?
  {
    if |msgs| > 0 {
      var init := msgs[..|msgs| - 1];
      AddedAllMembers(m, init, x);
      assert msgs == init + [msgs[|msgs| - 1]];
    }
  }

  /** FilterOut */
  class FilterOut {
    var messages: Option<set<string>>

    /** The zero FilterOut: no map yet. */
    constructor ()
      ensures messages == None
    {
      messages := None;
    }

    /** Add: allocates the map on first use and puts `msg` in it. */
    method Add(msg: string)
      modifies this
      ensures messages == Inserted(old(messages), msg)
    {
      if messages.None? {
        messages := Some({});
      }
      messages := Some(messages.value + {msg});
    }

    /** FilterOut: whether `msg` was added; the level and the arguments do
        not matter. */
    function Excludes(level: Level, msg: string, args: seq<Value>): (r: bool)
      reads this
      ensures r <==> msg in Members(messages)
      ensures messages.None? ==> !r
    {
      if messages.Some? then msg in messages.value else false
    }
  }
}
