/** How the status-driven governor of `HDT_MCP/mcp_governor.py` reads the answer of the
    Sources server's `sources_status`: the walk sources it will try are exactly those with
    a configured connector holding a real token. */
module StatusLink {
  import opened Wrappers
  import opened JsonValues
  import opened Envelopes
  import opened Governor
  import opened StatusGovernor
  import opened SourcesServer

  /** A status entry built from a connector is usable exactly when the connector exists
      and holds a token that is not a placeholder. */
  lemma ConnStateUsable(c: Option<Connector>)
    ensures Usable(ConnState(c)) <==> c.Some? && HasToken(c.value)
    ensures Truthy(ConnState(c))
  {
    var s := ConnState(c);
    assert Get(s, "configured") == Some(JBool(c.Some?));
    if c.None? {
      assert Lookup(s.fields, "has_token") == None;
    }
  }

  /** The governor's candidates from a status answer: gamebus when its walk connector has a
      token, then googlefit when its walk connector has one; reading them never raises. */
  lemma StatusFeedsCandidates(userId: int, gb: Option<Connector>, gf: Option<Connector>, gd: Option<Connector>)
    ensures var status := StatusJson(userId, gb, gf, gd);
      CandidatesOf(Entry(status, "walk"), StatusSources) ==
        Success((if gb.Some? && HasToken(gb.value) then [GameBus] else []) +
                (if gf.Some? && HasToken(gf.value) then [GoogleFit] else []))
  {
    var status := StatusJson(userId, gb, gf, gd);
    var fs := [("gamebus", ConnState(gb)), ("googlefit", ConnState(gf))];
    var walk := JObj(fs);
    assert Entry(status, "walk") == walk;
    LookupAt(fs, 0);
    LookupAt(fs, 1);
    ConnStateUsable(gb);
    ConnStateUsable(gf);
    assert Entry(walk, "gamebus") == ConnState(gb);
    assert Entry(walk, "googlefit") == ConnState(gf);
    CandidatesExact(walk);
  }

  /** For an unknown user the status answer is an error without a "walk" entry, so the
      governor finds no candidate and answers `no_usable_sources` without a fetch. */
  lemma UnknownUserHasNoCandidates(users: map<int, Fields>, userId: int)
    requires GetUser(users, userId).Failure?
    ensures var status := SourcesStatus(users, userId).value;
      CandidatesOf(Entry(status, "walk"), StatusSources) == Success([])
  {
    var err := GetUser(users, userId).error;
    var extra := [("user_id", JInt(userId))];
    assert Lookup(extra, "walk") == None;
    assert Get(err, "walk") == None;
    var walk := Entry(err, "walk");
    assert walk == JObj([]);
    CandidatesExact(walk);
  }
}
