/**
 * Forward-target selection of an AI actor: the candidate list, the filter
 * chain applied to every candidate and the first-match choice.
 *
 * The host queries (entities near a point, online players, the position of
 * an actor, whether it is a player, its distance to the subject, the
 * direction vector of its yaw) are inputs: every candidate arrives as a
 * record holding what those queries answered for it.
 */
module ForwardTarget {
  import opened Wrappers

  /** The `uniqueId` of an actor. */
  type ActorId = string

  /** A resolved position: the two horizontal coordinates and the dimension id. */
  datatype Pos = Pos(x: real, z: real, dim: int)

  /** A horizontal direction vector; `y` runs along the world z axis. */
  datatype Vec2 = Vec2(x: real, y: real)

  /**
   * One candidate as the host reports it: its id, its position if the host
   * can resolve it, whether it is a player, its distance to the subject and
   * the direction vector of its own yaw.
   */
  datatype Candidate = Candidate(id: ActorId, pos: Option<Pos>, isPlayer: bool, distance: real, dir: Vec2)

  /** How one selection ends. */
  datatype Selection =
    | EmptyActor                  // the AI has no actor
    | UnresolvedPosition          // the actor's position cannot be resolved
    | NoMatch                     // no candidate passes the filters
    | Match(target: Candidate)    // the first candidate that passes

  /** The default sight length. */
  const DefaultLength: real := 8.0

  /**
   * Dot product of the displacement from the candidate at `at` to the
   * subject at `subject` with the candidate's direction vector `dir`.
   */
  function Facing(subject: Pos, at: Pos, dir: Vec2): real {
    (subject.x - at.x) * dir.x + (subject.z - at.z) * dir.y
  }

  /** The filter chain applied to one candidate of a subject standing at `subject`. */
  predicate Accepts(subject: Pos, length: real, c: Candidate) {
    match c.pos
    case None => false
    case Some(p) =>
      && p.dim == subject.dim
      && !(c.isPlayer && c.distance > length)
      && Facing(subject, p, c.dir) > 0.0
  }

  /** The nearby entities with the subject's own id removed, in query order. */
  function Others(nearby: seq<Candidate>, self: ActorId): (r: seq<Candidate>)
    ensures |r| <= |nearby|
    ensures forall c :: c in r <==> c in nearby && c.id != self
  {
    if nearby == [] then []
    else if nearby[0].id != self then [nearby[0]] + Others(nearby[1..], self)
    else Others(nearby[1..], self)
  }

  /** The full candidate list: the other nearby entities, then every online player. */
  function Candidates(self: ActorId, nearby: seq<Candidate>, players: seq<Candidate>): seq<Candidate> {
    Others(nearby, self) + players
  }

  /** The index of the first candidate of `cs` that passes the filter chain, if any. */
  function FirstAccepted(subject: Pos, length: real, cs: seq<Candidate>): (r: Option<nat>)
    ensures r.Some? ==> r.value < |cs| && Accepts(subject, length, cs[r.value])
    ensures r.Some? ==> forall j :: 0 <= j < r.value ==> !Accepts(subject, length, cs[j])
    ensures r.None? ==> forall j :: 0 <= j < |cs| ==> !Accepts(subject, length, cs[j])
  {
    if cs == [] then None
    else if Accepts(subject, length, cs[0]) then Some(0)
    else match FirstAccepted(subject, length, cs[1..])
      case None => None
      case Some(i) => Some(i + 1)
  }

  /**
   * The decision `setForwardActorAsTarget` takes for an actor `actor`
   * standing at `pos`, given the answers of the two host queries.
   */
  function Select(actor: Option<ActorId>, pos: Option<Pos>, nearby: seq<Candidate>,
                  players: seq<Candidate>, length: real): (r: Selection)
    ensures r == EmptyActor <==> actor.None?
    ensures r == UnresolvedPosition <==> actor.Some? && pos.None?
    ensures r.Match? ==> actor.Some? && pos.Some?
    ensures r.Match? ==>
      && r.target.pos.Some?
      && r.target.pos.value.dim == pos.value.dim
      && (r.target.isPlayer ==> r.target.distance <= length)
      && Facing(pos.value, r.target.pos.value, r.target.dir) > 0.0
    ensures r.Match? ==>
      var cs := Candidates(actor.value, nearby, players);
      exists i :: 0 <= i < |cs| && cs[i] == r.target &&
        forall j :: 0 <= j < i ==> !Accepts(pos.value, length, cs[j])
    ensures r == NoMatch ==>
      actor.Some? && pos.Some? &&
      forall c :: c in Candidates(actor.value, nearby, players) ==> !Accepts(pos.value, length, c)
  {
    if actor.None? then EmptyActor
    else if pos.None? then UnresolvedPosition
    else
      var cs := Candidates(actor.value, nearby, players);
      match FirstAccepted(pos.value, length, cs)
      case None => NoMatch
      case Some(i) => Match(cs[i])
  }

  /** A candidate standing exactly where the subject stands is never accepted. */
  lemma SameSpotRejected(subject: Pos, length: real)
    ensures forall c: Candidate :: c.pos == Some(subject) ==> !Accepts(subject, length, c)
  {
  }

  /**
   * The subject never targets itself, even though the online players are
   * not filtered by id, provided the player list reports the subject where
   * the subject's own position query put it.
   */
  lemma SubjectNeverSelectsItself(self: ActorId, p: Pos, nearby: seq<Candidate>,
                                  players: seq<Candidate>, length: real)
    requires forall c :: c in players && c.id == self ==> c.pos == Some(p)
    ensures var r := Select(Some(self), Some(p), nearby, players, length);
            r.Match? ==> r.target.id != self
  {
  }

  /**
   * The first candidate in list order that passes the filters is the one
   * chosen, whatever comes after it: there is no ranking by distance or angle.
   */
  lemma FirstWins(self: ActorId, p: Pos, nearby: seq<Candidate>,
                    players: seq<Candidate>, length: real, i: nat)
    requires i < |Candidates(self, nearby, players)|
    requires Accepts(p, length, Candidates(self, nearby, players)[i])
    requires forall j :: 0 <= j < i ==> !Accepts(p, length, Candidates(self, nearby, players)[j])
    ensures Select(Some(self), Some(p), nearby, players, length) == Match(Candidates(self, nearby, players)[i])
  {
  }

  /**
   * A nearby entity (other than the subject) that passes the filters beats
   * every online player: the choice then comes from the nearby part of the list.
   */
  lemma NearbyBeforePlayers(self: ActorId, p: Pos, nearby: seq<Candidate>,
                            players: seq<Candidate>, length: real, c: Candidate)
    requires c in nearby && c.id != self && Accepts(p, length, c)
    ensures var r := Select(Some(self), Some(p), nearby, players, length);
            r.Match? && r.target in Others(nearby, self)
  {
    var others := Others(nearby, self);
    var cs := Candidates(self, nearby, players);
    assert c in others;
    var k :| 0 <= k < |others| && others[k] == c;
    assert cs[k] == c;
    var m := FirstAccepted(p, length, cs);
    assert m.Some? && m.value <= k;
    assert cs[m.value] == others[m.value];
  }

  /**
   * Where the entity at position `k` of the raw nearby query lands in the
   * filtered list, when it is not the subject and no earlier entity other
   * than the subject passes the filters.
   */
  lemma {:induction false} OthersIndex(self: ActorId, p: Pos, nearby: seq<Candidate>, length: real, k: nat)
    returns (m: nat)
    requires k < |nearby| && nearby[k].id != self
    requires forall j :: 0 <= j < k ==> nearby[j].id == self || !Accepts(p, length, nearby[j])
    ensures m < |Others(nearby, self)| && Others(nearby, self)[m] == nearby[k]
    ensures forall j :: 0 <= j < m ==> !Accepts(p, length, Others(nearby, self)[j])
  {
    if k == 0 {
      m := 0;
    } else {
      var m' := OthersIndex(self, p, nearby[1..], length, k - 1);
      if nearby[0].id == self {
        m := m';
      } else {
        assert !Accepts(p, length, nearby[0]);
        m := m' + 1;
      }
    }
  }

  /**
   * The filter keeps query order: the first entity of the raw nearby query
   * that is not the subject and passes the filters is the one chosen,
   * whatever the online players are.
   */
  lemma FirstInQueryOrder(self: ActorId, p: Pos, nearby: seq<Candidate>,
                          players: seq<Candidate>, length: real, k: nat)
    requires k < |nearby| && nearby[k].id != self && Accepts(p, length, nearby[k])
    requires forall j :: 0 <= j < k ==> nearby[j].id == self || !Accepts(p, length, nearby[j])
    ensures Select(Some(self), Some(p), nearby, players, length) == Match(nearby[k])
  {
    var m := OthersIndex(self, p, nearby, length, k);
    var cs := Candidates(self, nearby, players);
    assert cs[m] == nearby[k];
    assert forall j :: 0 <= j < m ==> cs[j] == Others(nearby, self)[j];
    FirstWins(self, p, nearby, players, length, m);
  }

  /** A candidate whose position cannot be resolved is never chosen. */
  lemma UnresolvedCandidateNeverSelected(actor: Option<ActorId>, pos: Option<Pos>, nearby: seq<Candidate>,
                                         players: seq<Candidate>, length: real, c: Candidate)
    requires c.pos.None?
    ensures Select(actor, pos, nearby, players, length) != Match(c)
  {
  }

  /** A candidate in another dimension than the subject is never chosen. */
  lemma OtherDimensionNeverSelected(actor: Option<ActorId>, p: Pos, nearby: seq<Candidate>,
                                    players: seq<Candidate>, length: real, c: Candidate)
    requires c.pos.Some? && c.pos.value.dim != p.dim
    ensures Select(actor, Some(p), nearby, players, length) != Match(c)
  {
  }

  /** A player farther away than `length` is never chosen. */
  lemma FarPlayerNeverSelected(actor: Option<ActorId>, pos: Option<Pos>, nearby: seq<Candidate>,
                               players: seq<Candidate>, length: real, c: Candidate)
    requires c.isPlayer && c.distance > length
    ensures Select(actor, pos, nearby, players, length) != Match(c)
  {
  }

  /** A candidate whose facing product is zero or negative is never chosen. */
  lemma NotFacingNeverSelected(actor: Option<ActorId>, p: Pos, nearby: seq<Candidate>,
                               players: seq<Candidate>, length: real, c: Candidate)
    requires c.pos.Some? && Facing(p, c.pos.value, c.dir) <= 0.0
    ensures Select(actor, Some(p), nearby, players, length) != Match(c)
  {
  }

  /**
   * Non-player candidates get no distance check of their own: a non-player
   * at the head of the nearby list that faces the subject in its dimension
   * is chosen whatever distance it reports.
   */
  lemma NonPlayerDistanceIgnored(self: ActorId, p: Pos, c: Candidate, rest: seq<Candidate>,
                                 players: seq<Candidate>, length: real)
    requires c.id != self && !c.isPlayer && c.pos.Some?
    requires c.pos.value.dim == p.dim && Facing(p, c.pos.value, c.dir) > 0.0
    ensures Select(Some(self), Some(p), [c] + rest, players, length) == Match(c)
  {
  }

  /**
   * The facing test is about the candidate's yaw, not the subject's: with
   * the subject at the origin, a candidate five blocks along +x is chosen
   * when it looks towards -x (at the subject) and rejected when it looks
   * towards +x (away), and a candidate five blocks along -x that looks at
   * the subject is chosen too.
   */
  lemma FacingScenario()
    ensures var o := Pos(0.0, 0.0, 0);
            var towards := Candidate("a", Some(Pos(5.0, 0.0, 0)), false, 5.0, Vec2(-1.0, 0.0));
            var away := Candidate("a", Some(Pos(5.0, 0.0, 0)), false, 5.0, Vec2(1.0, 0.0));
            var behind := Candidate("b", Some(Pos(-5.0, 0.0, 0)), false, 5.0, Vec2(1.0, 0.0));
            && Select(Some("s"), Some(o), [towards], [], DefaultLength) == Match(towards)
            && Select(Some("s"), Some(o), [away], [], DefaultLength) == NoMatch
            && Select(Some("s"), Some(o), [behind], [], DefaultLength) == Match(behind)
  {
  }

  /** A player at distance 9 is rejected at the default length 8, even when it faces the subject. */
  lemma FarPlayerScenario()
    ensures var o := Pos(0.0, 0.0, 0);
            var pl := Candidate("p", Some(Pos(9.0, 0.0, 0)), true, 9.0, Vec2(-1.0, 0.0));
            Select(Some("s"), Some(o), [pl], [pl], DefaultLength) == NoMatch
  {
  }
}
