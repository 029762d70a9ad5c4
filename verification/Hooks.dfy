/** Which chains get the jump into the sandbox chains, told from the configured list of chain names. */
module Hooks {
  import opened Text
  import opened Rules
  import opened Tables
  import opened Firewall
  import opened Policy

  /** An entry of the list names a chain once its blanks are cut off and its letters are upper case. */
  predicate Names(entry: string, c: string) {
    c != "" && TrimSpace(ToUpper(entry)) == c
  }

  /** The entries in force hook what the given ones name, and FORWARD. */
  lemma EffectiveNames(hooks: seq<string>, c: string)
    requires c != FORWARD
    ensures Hooked(EffectiveHooks(hooks), c) <==> SomeEntryNames(hooks, c)
  {
    var all := EffectiveHooks(hooks);
    assert HookName(FORWARD) == FORWARD by {
      assert ToUpper(FORWARD) == FORWARD && TrimSpace(FORWARD) == FORWARD;
    }
    if i :| 0 <= i < |hooks| && Names(hooks[i], c) {
      assert all == hooks || (all == [FORWARD] + hooks && all[i + 1] == hooks[i]);
      assert all == hooks ==> HookName(all[i]) == c;
    }
  }

  const INTO_FWD := Rule([], Jump("SANDBOX-FWD"))
  const INTO_IN := Rule([], Jump("SANDBOX-IN"))

  ghost predicate SomeEntryNames(hooks: seq<string>, c: string) {
    exists i :: 0 <= i < |hooks| && Names(hooks[i], c)
  }

  /** The list of a chain other than FORWARD after the installation: a named chain begins with the jump to the
      sandbox chains, with its other rules behind it in order; INPUT begins with its own jump and, if named, that
      jump next; a chain no entry names keeps its list. */
  ghost function Expected(hooks: seq<string>, c: string, s: seq<Rule>): seq<Rule> {
    var named := SomeEntryNames(hooks, c);
    if c != "INPUT" then if named then [INTO_FWD] + RemoveFirst(s, INTO_FWD) else s
    else if named then [INTO_IN, INTO_FWD] + RemoveFirst(RemoveFirst(s, INTO_FWD), INTO_IN)
    else [INTO_IN] + RemoveFirst(s, INTO_IN)
  }

  lemma EnsuredAsExpected(hooks: seq<string>, c: string, s: seq<Rule>)
    requires c != FORWARD
    ensures EnsuredChain(hooks, c, s) == Expected(hooks, c, s)
  {
    hide EffectiveHooks, RemoveFirst, Hooked, Names;
    EffectiveNames(hooks, c);
    if c == INPUT {
      JumpsDiffer();
      RemoveBehind(JUMP_FWD, RemoveFirst(s, JUMP_FWD), JUMP_IN);
    }
  }

  lemma JumpsDiffer()
    ensures JUMP_FWD != JUMP_IN
  {
    SystemNames();
    assert JUMP_FWD.target.chain != JUMP_IN.target.chain;
  }

  /** Whatever the table and the configured names, no chain but FORWARD gets a jump it was not named for, and
      every named chain of the table gets its jump. */
  lemma EveryNamedChainJumps(t: Table, hooks: seq<string>, c: string)
    requires FORWARD in t && INPUT in t && c != FORWARD
    ensures var after := EnsureTable(t, hooks);
      && after.ok
      && (c in after.table <==> c in t || c == "SANDBOX-FWD" || c == "SANDBOX-IN")
      && (c in after.table ==> after.table[c] == Expected(hooks, c, if c in t then t[c] else []))
  {
    hide EnsureTable, EnsuredChain, Expected;
    EnsureEffect(t, hooks);
    EnsuredAsExpected(hooks, c, if c in t then t[c] else []);
  }

  lemma DockerIsAWord()
    ensures TrimSpace(ToUpper("DOCKER-USER")) == "DOCKER-USER" == TrimSpace(ToUpper(" docker-user\t"))
  {
    var word := "DOCKER-USER";
    assert ToUpper(word) == word;
    assert ToUpper(" docker-user\t") == " " + word + "\t";
    assert (" " + word + "\t")[1..] == word + "\t";
    assert TrimLeft(" " + word + "\t") == TrimLeft(word + "\t") == word + "\t";
    assert (word + "\t")[..|word|] == word;
    assert TrimRight(word + "\t") == TrimRight(word) == word;
  }

  /** The default configuration, and one that writes a name in lower case with blanks around it. */
  lemma DockerChainJumps(t: Table, hooks: seq<string>)
    requires FORWARD in t && INPUT in t && "DOCKER-USER" in t
    requires hooks == ["FORWARD", "DOCKER-USER"] || hooks == [" docker-user\t"]
    ensures var after := EnsureTable(t, hooks).table;
      && Chain(after, "DOCKER-USER")
         == [INTO_FWD] + RemoveFirst(t["DOCKER-USER"], INTO_FWD)
      && [INTO_FWD] <= Chain(after, "FORWARD")
  {
    hide EnsureTable, RemoveFirst, TrimSpace, ToUpper;
    DockerIsAWord();
    assert Names(hooks[|hooks| - 1], "DOCKER-USER") && SomeEntryNames(hooks, "DOCKER-USER");
    assert "DOCKER-USER"[0] != FORWARD[0] && "DOCKER-USER"[0] != INPUT[0];
    EveryNamedChainJumps(t, hooks, "DOCKER-USER");
    EnsureEffect(t, hooks);
    ForwardHead(t[FORWARD]);
  }
}
