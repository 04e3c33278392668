/** A concrete run in which a logout does not end the family: a rotation has won its swap and mints only
    after the family was revoked. */
module SessionRace {
  import opened Outcomes
  import opened Sessions

  function Ask(id: Id, hash: string): Choice {
    Choice(Some(id), hash, 100)
  }

  lemma RunOne(actions: seq<Action>, a: Action)
    ensures Run(INITIAL, actions + [a]) == Step(Run(INITIAL, actions), a)
  {
    assert (actions + [a])[..|actions|] == actions;
  }

  function First(revoked: Option<nat>): Session {
    Session("kim", "f", "h1", 100, revoked, 0, None)
  }

  lemma LoggedIn() returns (actions: seq<Action>)
    ensures Run(INITIAL, actions) == State(map["s1" := First(None)], 0, map[], {"f"})
  {
    actions := [];
    RunOne(actions, Login(1, "kim", "f"));
    actions := actions + [Login(1, "kim", "f")];
    assert Run(INITIAL, actions) == State(map[], 0, map[1 := Mint("kim", "f", 0, None)], {"f"}) by {
      assert {} + {"f"} == {"f"};
    }
    RunOne(actions, Next(1, Ask("s1", "h1")));
    actions := actions + [Next(1, Ask("s1", "h1"))];
    assert Without(map[1 := Mint("kim", "f", 0, None)], 1) == map[];
  }

  /** Call 1 has won the swap on the first session and not yet minted. */
  lemma RotationWon() returns (actions: seq<Action>)
    ensures Run(INITIAL, actions) == State(map["s1" := First(Some(0))], 0, map[1 := Mint("kim", "f", 1, Some("s1"))], {"f"})
  {
    actions := LoggedIn();
    RunOne(actions, Rotate(1, "h1"));
    actions := actions + [Rotate(1, "h1")];
    RunOne(actions, Next(1, Ask("s1", "")));
    actions := actions + [Next(1, Ask("s1", ""))];
    assert Run(INITIAL, actions).procs == map[1 := Retire("s1", "kim", "f")];
    RunOne(actions, Next(1, Ask("s1", "")));
    actions := actions + [Next(1, Ask("s1", ""))];
  }

  /** Call 2 logs out with the same token: the family is revoked. */
  lemma LoggedOut() returns (actions: seq<Action>)
    ensures Run(INITIAL, actions) == State(map["s1" := First(Some(0))], 0, map[1 := Mint("kim", "f", 1, Some("s1"))], {"f"})
    ensures |actions| > 0 && actions[|actions| - 1] == Next(2, Ask("s1", "")) && Run(INITIAL, actions[..|actions| - 1]).procs
         == map[1 := Mint("kim", "f", 1, Some("s1")), 2 := KillFamily("f")]
  {
    actions := RotationWon();
    RunOne(actions, Logout(2, "h1"));
    actions := actions + [Logout(2, "h1")];
    RunOne(actions, Next(2, Ask("s1", "")));
    actions := actions + [Next(2, Ask("s1", ""))];
    var s := Run(INITIAL, actions);
    assert s.procs == map[1 := Mint("kim", "f", 1, Some("s1")), 2 := KillFamily("f")];
    RunOne(actions, Next(2, Ask("s1", "")));
    assert RevokeFamily(s.sessions, "f", 0) == s.sessions;
    assert Without(s.procs, 2) == map[1 := Mint("kim", "f", 1, Some("s1"))];
    assert (actions + [Next(2, Ask("s1", ""))])[..|actions|] == actions;
    actions := actions + [Next(2, Ask("s1", ""))];
  }

  /** After the logout, the rotation mints: the family has an active session again. */
  lemma LogoutCanMissARotation() returns (before: seq<Action>)
    ensures |before| > 0 && before[|before| - 1] == Next(2, Ask("s1", ""))
    ensures 2 in Run(INITIAL, before[..|before| - 1]).procs && Run(INITIAL, before[..|before| - 1]).procs[2] == KillFamily("f")
    ensures Active(Run(INITIAL, before + [Next(1, Ask("s2", "h2"))]).sessions, "s2")
    ensures Run(INITIAL, before + [Next(1, Ask("s2", "h2"))]).sessions["s2"].family == "f"
  {
    before := LoggedOut();
    RunOne(before, Next(1, Ask("s2", "h2")));
    assert "s2" != "s1" by { assert "s2"[1] != "s1"[1]; }
  }
}
