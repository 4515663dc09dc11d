/** The generations of a project's extension configuration and the claims to
    reload it (`core/extensions.py`, `_publish_config_in_transaction` and
    `ConfigReloadClaimStore`). Configurations appear as their printed form. */
module Generations {
  import opened Options
  import opened Extensions

  type Scope = nat
  type Key = nat

  /** A row of the generations: the digest and the stored text. */
  datatype Generation = Generation(digest: Digest, stored: Json)

  type Chain = map<nat, Generation>

  datatype ReloadState = Claimed | Started | Confirmed | Rejected | Unknown

  datatype Claim = Claim(digest: Digest, generation: nat, fence: nat, state: ReloadState, version: Option<nat>)

  /** What the session's binding says: a transition under way, or the version it runs. */
  datatype Pending = Pending(version: nat, digest: Digest, transition: nat)
  datatype Session = Session(pending: Option<Pending>, synced: Option<(nat, Digest)>)

  datatype State = State(generations: map<Scope, Chain>, claims: map<Key, Claim>, session: Session)

  function ChainOf(s: State, scope: Scope): Chain {
    if scope in s.generations then s.generations[scope] else map[]
  }

  lemma HighestExists(versions: set<nat>) returns (v: nat)
    requires versions != {}
    ensures v in versions && forall w | w in versions :: w <= v
  {
    v :| v in versions;
    var rest := versions - {v};
    assert versions == rest + {v};
    if rest != {} {
      var w := HighestExists(rest);
      v := if w > v then w else v;
    }
  }

  lemma LatestExists(chain: Chain)
    requires chain != map[]
    ensures exists v :: IsLatest(chain, v)
  {
    assert chain.Keys != {} by { assert exists v :: v in chain; }
    var v := HighestExists(chain.Keys);
    assert IsLatest(chain, v);
  }

  predicate IsLatest(chain: Chain, v: nat) {
    v in chain && forall w | w in chain :: w <= v
  }

  /** The highest version of a chain, or 0 of an empty one. */
  ghost function Latest(chain: Chain): (v: nat)
    ensures if chain == map[] then v == 0 else IsLatest(chain, v)
  {
    if chain == map[] then 0
    else
      LatestExists(chain);
      var v: nat :| IsLatest(chain, v);
      v
  }

  function WithChain(s: State, scope: Scope, chain: Chain): State {
    s.(generations := s.generations[scope := chain])
  }

  ghost predicate IsCurrent(s: State, scope: Scope, content: Json) {
    var chain := ChainOf(s, scope);
    chain != map[] && chain[Latest(chain)].digest == Sha256(content)
  }

  ghost function Longer(chain: Chain, content: Json): Chain {
    chain[Latest(chain) + 1 := Generation(Sha256(content), content)]
  }

  ghost function Appended(s: State, scope: Scope, content: Json): State {
    WithChain(s, scope, Longer(ChainOf(s, scope), content))
  }

  datatype Publication = Publication(state: State, version: nat)

  /** `_publish_config_in_transaction`: the same digest as the latest publishes nothing. */
  ghost function Published(s: State, scope: Scope, content: Json, expected: Option<nat>): Option<Publication> {
    var current := Latest(ChainOf(s, scope));
    if expected.Some? && current != expected.value then None
    else if IsCurrent(s, scope, content) then Some(Publication(s, current))
    else Some(Publication(Appended(s, scope, content), current + 1))
  }

  /** `claim`. */
  function ClaimedOnly(s: State, key: Key, digest: Digest, generation: nat, fence: nat): Option<State> {
    if key !in s.claims then Some(s.(claims := s.claims[key := Claim(digest, generation, fence, Claimed, None)]))
    else if s.claims[key].digest == digest then Some(s)
    else None
  }

  datatype Reload = Reload(state: State, version: nat, created: bool)

  /** Whether a claim still has to be given a version. */
  predicate Unversioned(s: State, key: Key) {
    key !in s.claims || (s.claims[key].state == Claimed && s.claims[key].version == None)
  }

  /** The part of `claim_and_publish` that fixes the version of a claim. */
  ghost function Versioned(s: State, key: Key, scope: Scope, content: Json, generation: nat, fence: nat,
                           expected: Option<nat>): Option<Reload> {
    if key in s.claims && s.claims[key].digest != Sha256(content) then None
    else if Unversioned(s, key) then
      var p := Published(s, scope, content, expected);
      if p.None? then None
      else
        var row := Claim(Sha256(content), generation, fence, Started, Some(p.value.version));
        Some(Reload(p.value.state.(claims := s.claims[key := row]), p.value.version, key !in s.claims))
    else if s.claims[key].version.None? then None
    else Some(Reload(s, s.claims[key].version.value, false))
  }

  /** The rest: the version must be that of the configuration, the claim is taken
      over, and the session is told, unless another transition is under way. */
  function TakenOver(t: State, version: nat, key: Key, scope: Scope, content: Json,
                     generation: nat, fence: nat, transition: nat): Option<State>
    requires key in t.claims
  {
    var chain, d, row := ChainOf(t, scope), Sha256(content), t.claims[key];
    if version !in chain || chain[version].digest != d then None
    else if row.state == Confirmed || row.state == Rejected then Some(t)
    else
      var u := t.(claims := t.claims[key := row.(state := Started, generation := generation, fence := fence)]);
      var wanted := Pending(version, d, transition);
      if t.session.pending.Some? && t.session.pending.value != wanted then None
      else if t.session.pending.None? && t.session.synced == Some((version, d)) then Some(u)
      else Some(u.(session := Session(Some(wanted), None)))
  }

  ghost function ClaimedAndPublished(s: State, key: Key, scope: Scope, content: Json, generation: nat, fence: nat,
                                     transition: nat, expected: Option<nat>, owner: bool): Option<Reload> {
    if !owner then None
    else
      var r := Versioned(s, key, scope, content, generation, fence, expected);
      if r.None? then None
      else
        var t := TakenOver(r.value.state, r.value.version, key, scope, content, generation, fence, transition);
        if t.None? then None else Some(r.value.(state := t.value))
  }

  predicate Allowed(from: ReloadState, to: ReloadState) {
    || (from == Claimed && to != Claimed)
    || (from == Started && (to == Confirmed || to == Rejected || to == Unknown))
    || (from == Unknown && to == Confirmed)
  }

  /** `transition`: only for the claim the caller saw, while it owns the session. */
  function Moved(s: State, key: Key, seen: Claim, to: ReloadState, version: Option<nat>, owner: bool): Option<State> {
    if !Allowed(seen.state, to) || !owner || key !in s.claims then None
    else
      var row := s.claims[key];
      if row.digest != seen.digest || row.state != seen.state || row.generation != seen.generation || row.fence != seen.fence
      then None
      else Some(s.(claims := s.claims[key := row.(state := to, version := if version.Some? then version else row.version)]))
  }

  datatype Action =
    | Publish(scope: Scope, content: Json, expected: Option<nat>)
    | MakeClaim(key: Key, digest: Digest, generation: nat, fence: nat)
    | ClaimAndPublish(key: Key, scope: Scope, content: Json, generation: nat, fence: nat,
                      transition: nat, expected: Option<nat>, owner: bool)
    | Move(key: Key, seen: Claim, to: ReloadState, version: Option<nat>, owner: bool)
    | ChangeSession(session: Session)

  /** A transaction that raises leaves everything alone. */
  ghost function Step(s: State, a: Action): State {
    match a
    case Publish(scope, content, expected) =>
      var p := Published(s, scope, content, expected);
      if p.Some? then p.value.state else s
    case MakeClaim(key, digest, generation, fence) =>
      var t := ClaimedOnly(s, key, digest, generation, fence);
      if t.Some? then t.value else s
    case ClaimAndPublish(key, scope, content, generation, fence, transition, expected, owner) =>
      var r := ClaimedAndPublished(s, key, scope, content, generation, fence, transition, expected, owner);
      if r.Some? then r.value.state else s
    case Move(key, seen, to, version, owner) =>
      var t := Moved(s, key, seen, to, version, owner);
      if t.Some? then t.value else s
    case ChangeSession(session) => s.(session := session)
  }

  // ----- what holds in every run -----

  /** Versions count from 1 without gaps, neighbours differ, and every stored
      generation still parses to a configuration of its digest. */
  ghost predicate ChainOk(good: Json -> bool, chain: Chain) {
    && (forall v: nat :: v in chain <==> 1 <= v <= Latest(chain))
    && (forall v, w | v in chain && w in chain && w == v + 1 :: chain[v].digest != chain[w].digest)
    && (forall v | v in chain :: chain[v].digest == Sha256(chain[v].stored) && good(chain[v].stored))
  }

  ghost predicate Sound(good: Json -> bool, s: State) {
    forall scope | scope in s.generations :: ChainOk(good, s.generations[scope])
  }

  /** No row of a chain changes or goes. */
  ghost predicate Appends(before: Chain, after: Chain) {
    forall v | v in before :: v in after && after[v] == before[v]
  }

  /** One row more than before, for the content and under the next version. */
  ghost predicate OneLonger(before: Chain, after: Chain, content: Json) {
    && after.Keys == before.Keys + {Latest(before) + 1} && Latest(before) + 1 !in before
    && after[Latest(before) + 1] == Generation(Sha256(content), content)
    && Appends(before, after)
  }

  ghost predicate AllAppend(s: State, t: State) {
    forall scope :: Appends(ChainOf(s, scope), ChainOf(t, scope))
  }

  ghost predicate ValidAction(good: Json -> bool, a: Action) {
    match a
    case Publish(_, content, _) => good(content)
    case ClaimAndPublish(_, _, content, _, _, _, _, _) => good(content)
    case _ => true
  }

  lemma ChainGrows(good: Json -> bool, chain: Chain, content: Json)
    requires good(content) && ChainOk(good, chain)
    requires chain != map[] ==> chain[Latest(chain)].digest != Sha256(content)
    ensures ChainOk(good, Longer(chain, content)) && Appends(chain, Longer(chain, content))
  {
    var n := Latest(chain);
    var more := Longer(chain, content);
    assert n + 1 in more && forall w | w in more :: w <= n + 1;
    assert Latest(more) == n + 1;
  }

  lemma ChainOfSound(good: Json -> bool, s: State, scope: Scope)
    requires Sound(good, s)
    ensures ChainOk(good, ChainOf(s, scope))
  {
    if scope !in s.generations { assert ChainOf(s, scope) == map[]; }
  }

  /** Publishing changes nothing if the content is what is current, and otherwise
      appends one row to the chain of the scope and touches no other chain. */
  lemma PublishSound(good: Json -> bool, s: State, scope: Scope, content: Json, expected: Option<nat>)
    requires good(content) && Sound(good, s) && Published(s, scope, content, expected).Some?
    ensures var p := Published(s, scope, content, expected).value;
      && Sound(good, p.state) && p.state.claims == s.claims && p.state.session == s.session
      && AllAppend(s, p.state)
      && (if IsCurrent(s, scope, content) then p.state == s
          else OneLonger(ChainOf(s, scope), ChainOf(p.state, scope), content))
      && forall other | other != scope :: ChainOf(p.state, other) == ChainOf(s, other)
  {
    if IsCurrent(s, scope, content) {
      SameGenerations(good, s, s);
    } else {
      AppendedSound(good, s, scope, content);
    }
  }

  lemma AppendedSound(good: Json -> bool, s: State, scope: Scope, content: Json)
    requires good(content) && Sound(good, s) && !IsCurrent(s, scope, content)
    ensures Sound(good, Appended(s, scope, content)) && AllAppend(s, Appended(s, scope, content))
    ensures OneLonger(ChainOf(s, scope), ChainOf(Appended(s, scope, content), scope), content)
    ensures forall other | other != scope :: ChainOf(Appended(s, scope, content), other) == ChainOf(s, other)
  {
    ChainOfSound(good, s, scope);
    ChainGrows(good, ChainOf(s, scope), content);
    GrownSound(good, s, scope, Longer(ChainOf(s, scope), content));
  }

  lemma GrownSound(good: Json -> bool, s: State, scope: Scope, more: Chain)
    requires Sound(good, s) && ChainOk(good, more) && Appends(ChainOf(s, scope), more)
    ensures Sound(good, WithChain(s, scope, more)) && AllAppend(s, WithChain(s, scope, more))
  {
  }

  /** The version a publication returns is the latest of its chain and has its digest. */
  lemma PublishedIsLatest(s: State, scope: Scope, content: Json, expected: Option<nat>)
    requires Published(s, scope, content, expected).Some?
    ensures var p := Published(s, scope, content, expected).value;
      var after := ChainOf(p.state, scope);
      p.version in after && after[p.version].digest == Sha256(content) && p.version == Latest(after)
  {
    var p := Published(s, scope, content, expected).value;
    var after := ChainOf(p.state, scope);
    assert p.version in after && forall w | w in after :: w <= p.version;
  }

  /** What a step does to the generations: nothing, or what a publication does. */
  ghost predicate GenerationsFrom(s: State, scope: Scope, content: Json, expected: Option<nat>, t: State) {
    || t.generations == s.generations
    || (&& Published(s, scope, content, expected).Some?
        && t.generations == Published(s, scope, content, expected).value.state.generations)
  }

  lemma TakenOverKeepsGenerations(t: State, version: nat, key: Key, scope: Scope, content: Json,
                                  generation: nat, fence: nat, transition: nat)
    requires key in t.claims && TakenOver(t, version, key, scope, content, generation, fence, transition).Some?
    ensures var u := TakenOver(t, version, key, scope, content, generation, fence, transition).value;
      && u.generations == t.generations
      && key in u.claims && u.claims[key].version == t.claims[key].version
      && u.claims[key].digest == t.claims[key].digest
  {
  }

  lemma ClaimAndPublishGenerations(s: State, key: Key, scope: Scope, content: Json, generation: nat, fence: nat,
                                   transition: nat, expected: Option<nat>, owner: bool)
    requires ClaimedAndPublished(s, key, scope, content, generation, fence, transition, expected, owner).Some?
    ensures var r := ClaimedAndPublished(s, key, scope, content, generation, fence, transition, expected, owner).value;
      && GenerationsFrom(s, scope, content, expected, r.state)
      && (!Unversioned(s, key) ==> r.state.generations == s.generations && !r.created)
      && key in r.state.claims && r.state.claims[key].version == Some(r.version)
      && r.state.claims[key].digest == Sha256(content)
      && r.version in ChainOf(r.state, scope) && ChainOf(r.state, scope)[r.version].digest == Sha256(content)
  {
    var v := Versioned(s, key, scope, content, generation, fence, expected).value;
    TakenOverKeepsGenerations(v.state, v.version, key, scope, content, generation, fence, transition);
  }

  lemma SameGenerations(good: Json -> bool, s: State, t: State)
    requires Sound(good, s) && t.generations == s.generations
    ensures Sound(good, t) && AllAppend(s, t)
  {
  }

  lemma FromSound(good: Json -> bool, s: State, scope: Scope, content: Json, expected: Option<nat>, t: State)
    requires Sound(good, s) && good(content) && GenerationsFrom(s, scope, content, expected, t)
    ensures Sound(good, t) && AllAppend(s, t)
  {
    if t.generations == s.generations {
      SameGenerations(good, s, t);
    } else {
      PublishSound(good, s, scope, content, expected);
      SameGenerations(good, Published(s, scope, content, expected).value.state, t);
    }
  }

  lemma StepSound(good: Json -> bool, s: State, a: Action)
    requires ValidAction(good, a) && Sound(good, s)
    ensures Sound(good, Step(s, a))
    ensures AllAppend(s, Step(s, a))
  {
    match a
    case Publish(scope, content, expected) =>
      FromSound(good, s, scope, content, expected, Step(s, a));
    case ClaimAndPublish(key, scope, content, generation, fence, transition, expected, owner) =>
      if ClaimedAndPublished(s, key, scope, content, generation, fence, transition, expected, owner).Some? {
        ClaimAndPublishGenerations(s, key, scope, content, generation, fence, transition, expected, owner);
      }
      FromSound(good, s, scope, content, expected, Step(s, a));
    case MakeClaim(_, _, _, _) => SameGenerations(good, s, Step(s, a));
    case Move(_, _, _, _, _) => SameGenerations(good, s, Step(s, a));
    case ChangeSession(_) => SameGenerations(good, s, Step(s, a));
  }

  // ----- runs -----

  const Empty := State(map[], map[], Session(None, None))

  ghost function Run(s: State, actions: seq<Action>): State {
    if actions == [] then s else Step(Run(s, actions[..|actions| - 1]), actions[|actions| - 1])
  }

  ghost predicate ValidActions(good: Json -> bool, actions: seq<Action>) {
    forall i | 0 <= i < |actions| :: ValidAction(good, actions[i])
  }

  /** Chains only grow, by one version at a time, and neighbours always differ. */
  lemma {:induction false} ChainsOnlyGrow(good: Json -> bool, s: State, actions: seq<Action>)
    requires Sound(good, s) && ValidActions(good, actions)
    ensures Sound(good, Run(s, actions))
    ensures AllAppend(s, Run(s, actions))
  {
    if actions != [] {
      var last := |actions| - 1;
      ChainsOnlyGrow(good, s, actions[..last]);
      StepSound(good, Run(s, actions[..last]), actions[last]);
    }
  }

  /** When only valid configurations are published, every stored generation is
      read back, for ever, as a valid configuration of the stored digest. */
  lemma StoredGenerationsReadBack(lib: Library, actions: seq<Action>, scope: Scope, v: nat)
    requires Faithful(lib) && ValidActions(j => Printed(lib, j), actions)
    requires v in ChainOf(Run(Empty, actions), scope)
    ensures var g := ChainOf(Run(Empty, actions), scope)[v];
      Snapshot(lib, g.digest, g.stored).Some? && Valid(lib, Snapshot(lib, g.digest, g.stored).value)
  {
    ChainsOnlyGrow(j => Printed(lib, j), Empty, actions);
    var g := ChainOf(Run(Empty, actions), scope)[v];
    assert Printed(lib, g.stored);
    var c :| Valid(lib, c) && g.stored == ToDict(c);
    StoredReverifies(lib, c);
  }

  /** A claim that has a version keeps it unless a transition names another one. */
  predicate KeepsVersion(a: Action, key: Key, v: nat) {
    a.Move? && a.key == key ==> a.version == None || a.version == Some(v)
  }

  lemma StepKeepsVersion(s: State, a: Action, key: Key, v: nat)
    requires key in s.claims && s.claims[key].version == Some(v) && KeepsVersion(a, key, v)
    ensures key in Step(s, a).claims && Step(s, a).claims[key].version == Some(v)
    ensures Step(s, a).claims[key].digest == s.claims[key].digest
  {
    if a.ClaimAndPublish? {
      var r := ClaimedAndPublished(s, a.key, a.scope, a.content, a.generation, a.fence, a.transition, a.expected, a.owner);
      if r.Some? && a.key == key {
        ClaimAndPublishGenerations(s, a.key, a.scope, a.content, a.generation, a.fence, a.transition, a.expected, a.owner);
      }
    }
  }

  lemma {:induction false} RunKeepsVersion(s: State, actions: seq<Action>, key: Key, v: nat)
    requires key in s.claims && s.claims[key].version == Some(v)
    requires forall i | 0 <= i < |actions| :: KeepsVersion(actions[i], key, v)
    ensures key in Run(s, actions).claims && Run(s, actions).claims[key].version == Some(v)
    ensures Run(s, actions).claims[key].digest == s.claims[key].digest
  {
    if actions != [] {
      var last := |actions| - 1;
      RunKeepsVersion(s, actions[..last], key, v);
      StepKeepsVersion(Run(s, actions[..last]), actions[last], key, v);
    }
  }

  /** Repeating a reload with the same key returns the same version, creates no
      claim and publishes nothing, whatever happened in between and whether or
      not other configurations were published meanwhile. */
  lemma RepeatedReloadIsStable(s: State, key: Key, scope: Scope, content: Json, generation: nat, fence: nat, transition: nat,
                               expected: Option<nat>, actions: seq<Action>,
                               generation': nat, fence': nat, transition': nat, expected': Option<nat>)
    requires ClaimedAndPublished(s, key, scope, content, generation, fence, transition, expected, true).Some?
    requires var first := ClaimedAndPublished(s, key, scope, content, generation, fence, transition, expected, true).value;
      && (forall i | 0 <= i < |actions| :: KeepsVersion(actions[i], key, first.version))
      && ClaimedAndPublished(Run(first.state, actions), key, scope, content, generation', fence', transition', expected', true).Some?
    ensures var first := ClaimedAndPublished(s, key, scope, content, generation, fence, transition, expected, true).value;
      var t := Run(first.state, actions);
      var again := ClaimedAndPublished(t, key, scope, content, generation', fence', transition', expected', true).value;
      again.version == first.version && !again.created && again.state.generations == t.generations
  {
    var first := ClaimedAndPublished(s, key, scope, content, generation, fence, transition, expected, true).value;
    ClaimAndPublishGenerations(s, key, scope, content, generation, fence, transition, expected, true);
    RunKeepsVersion(first.state, actions, key, first.version);
    var t := Run(first.state, actions);
    ClaimAndPublishGenerations(t, key, scope, content, generation', fence', transition', expected', true);
  }

  /** A reload never replaces another transition that is under way, and one that
      is not settled yet leaves its own transition under way unless the session
      runs the version already. */
  lemma OneTransitionAtATime(s: State, key: Key, scope: Scope, content: Json, generation: nat, fence: nat,
                             transition: nat, expected: Option<nat>, owner: bool)
    requires ClaimedAndPublished(s, key, scope, content, generation, fence, transition, expected, owner).Some?
    ensures var r := ClaimedAndPublished(s, key, scope, content, generation, fence, transition, expected, owner).value;
      var wanted := Pending(r.version, Sha256(content), transition);
      if r.state.claims[key].state == Confirmed || r.state.claims[key].state == Rejected
      then r.state.session == s.session
      else
        && (s.session.pending.Some? ==> s.session.pending.value == wanted)
        && (r.state.session.pending == Some(wanted)
            || (r.state.session == s.session && s.session.synced == Some((r.version, Sha256(content)))))
  {
  }

  /** A reload that succeeds leaves its key claimed for the configuration and its
      version, by the caller and started, unless it was confirmed or rejected before. */
  lemma ReloadTakesTheClaim(s: State, key: Key, scope: Scope, content: Json, generation: nat, fence: nat,
                            transition: nat, expected: Option<nat>, owner: bool)
    requires ClaimedAndPublished(s, key, scope, content, generation, fence, transition, expected, owner).Some?
    ensures var r := ClaimedAndPublished(s, key, scope, content, generation, fence, transition, expected, owner).value;
      && r.created == (key !in s.claims)
      && r.state.claims.Keys == s.claims.Keys + {key}
      && (forall k | k in s.claims && k != key :: r.state.claims[k] == s.claims[k])
      && if key in s.claims && (s.claims[key].state == Confirmed || s.claims[key].state == Rejected)
         then r.state.claims[key] == s.claims[key]
         else r.state.claims[key] == Claim(Sha256(content), generation, fence, Started, Some(r.version))
  {
  }

  /** A reload under a new key succeeds exactly when its caller owns the session,
      the scope is at the version it expects, and no other transition is under way. */
  lemma FreshReloadSucceedsWhen(s: State, key: Key, scope: Scope, content: Json, generation: nat, fence: nat,
                                transition: nat, expected: Option<nat>, owner: bool)
    requires key !in s.claims
    ensures var chain := ChainOf(s, scope);
      var version := if IsCurrent(s, scope, content) then Latest(chain) else Latest(chain) + 1;
      ClaimedAndPublished(s, key, scope, content, generation, fence, transition, expected, owner).Some? <==>
        && owner
        && (expected.Some? ==> if chain == map[] then expected.value == 0 else IsLatest(chain, expected.value))
        && (s.session.pending.Some? ==> s.session.pending.value == Pending(version, Sha256(content), transition))
  {
  }

  lemma StepKeepsSettled(s: State, a: Action, key: Key)
    requires key in s.claims && (s.claims[key].state == Confirmed || s.claims[key].state == Rejected)
    ensures key in Step(s, a).claims && Step(s, a).claims[key].state == s.claims[key].state
  {
  }

  /** In every run a confirmed or rejected reload stays so. */
  lemma {:induction false} SettledClaimsStay(s: State, actions: seq<Action>, key: Key)
    requires key in s.claims && (s.claims[key].state == Confirmed || s.claims[key].state == Rejected)
    ensures key in Run(s, actions).claims && Run(s, actions).claims[key].state == s.claims[key].state
  {
    if actions != [] {
      var last := |actions| - 1;
      SettledClaimsStay(s, actions[..last], key);
      StepKeepsSettled(Run(s, actions[..last]), actions[last], key);
    }
  }

  // ----- the code -----

  /** The three tables. Each method is one transaction: when it raises, it leaves
      them as they were. */
  class ConfigStore {
    var generations: map<Scope, Chain>
    var claims: map<Key, Claim>
    var session: Session

    ghost function Current(): State
      reads this
    {
      State(generations, claims, session)
    }

    constructor ()
      ensures Current() == Empty
    {
      generations, claims, session := map[], map[], Session(None, None);
    }

    /** The row with the highest version of a scope. */
    method LatestVersion(scope: Scope) returns (version: nat)
      ensures version == Latest(ChainOf(Current(), scope))
    {
      version := 0;
      var chain: Chain := if scope in generations then generations[scope] else map[];
      var left := chain.Keys;
      while left != {}
        invariant left <= chain.Keys
        invariant forall w | w in chain && w !in left :: w <= version
        invariant version == 0 || version in chain
        decreases |left|
      {
        var w :| w in left;
        left := left - {w};
        if w > version { version := w; }
      }
      assert chain == ChainOf(Current(), scope);
    }

    /** `_publish_config_in_transaction`. */
    method PublishConfig(scope: Scope, content: Json, expected: Option<nat>) returns (version: Option<nat>)
      modifies `generations
      ensures Current() == Step(old(Current()), Publish(scope, content, expected))
      ensures var p := Published(old(Current()), scope, content, expected);
        version == if p.Some? then Some(p.value.version) else None
      ensures var before, after := ChainOf(old(Current()), scope), ChainOf(Current(), scope);
        && (version.None? <==> expected.Some? && if before == map[] then expected.value != 0 else !IsLatest(before, expected.value))
        && (version.None? ==> generations == old(generations))
        && (version.Some? ==>
              && IsLatest(after, version.value) && after[version.value].digest == Sha256(content)
              && if version.value in before then generations == old(generations)
                 else after == before[version.value := Generation(Sha256(content), content)])
    {
      var current := LatestVersion(scope);
      var chain: Chain := if scope in generations then generations[scope] else map[];
      if expected.Some? && current != expected.value { return None; }
      if chain != map[] && chain[current].digest == Sha256(content) { return Some(current); }
      generations := generations[scope := chain[current + 1 := Generation(Sha256(content), content)]];
      version := Some(current + 1);
    }

    /** `claim`. */
    method MakeClaimOnly(key: Key, digest: Digest, generation: nat, fence: nat) returns (ok: bool, created: bool)
      modifies `claims
      ensures Current() == Step(old(Current()), MakeClaim(key, digest, generation, fence))
      ensures ok <==> key !in old(claims) || old(claims)[key].digest == digest
      ensures claims == if created then old(claims)[key := Claim(digest, generation, fence, Claimed, None)] else old(claims)
      ensures created <==> key !in old(claims)
    {
      created := key !in claims;
      if created {
        claims := claims[key := Claim(digest, generation, fence, Claimed, None)];
        ok := true;
      } else {
        ok := claims[key].digest == digest;
      }
    }

    /** The first half of `claim_and_publish`: the claim and its version. */
    method FixVersion(key: Key, scope: Scope, content: Json, generation: nat, fence: nat, expected: Option<nat>)
      returns (version: Option<nat>, created: bool)
      modifies `generations, `claims
      ensures var r := Versioned(old(Current()), key, scope, content, generation, fence, expected);
        if r.None? then version == None && Current() == old(Current())
        else version == Some(r.value.version) && created == r.value.created && Current() == r.value.state
    {
      created := false;
      if key in claims && claims[key].digest != Sha256(content) { return None, false; }
      if key !in claims || (claims[key].state == Claimed && claims[key].version == None) {
        created := key !in claims;
        version := PublishConfig(scope, content, expected);
        if version.None? { return; }
        claims := claims[key := Claim(Sha256(content), generation, fence, Started, version)];
      } else {
        version := claims[key].version;
      }
    }

    /** `claim_and_publish`; `owner` says whether the caller still owns the
        session and its attachment. */
    method ReloadConfig(key: Key, scope: Scope, content: Json, generation: nat, fence: nat, transition: nat,
                  expected: Option<nat>, owner: bool)
      returns (version: Option<nat>, created: bool)
      modifies this
      ensures Current() ==
        Step(old(Current()), ClaimAndPublish(key, scope, content, generation, fence, transition, expected, owner))
      ensures var r := ClaimedAndPublished(old(Current()), key, scope, content, generation, fence, transition, expected, owner);
        if r.None? then version == None else version == Some(r.value.version) && created == r.value.created
      ensures version.None? ==> Current() == old(Current())
      ensures version.Some? ==> owner && (key in old(claims) ==> old(claims)[key].digest == Sha256(content))
    {
      version, created := None, false;
      if !owner { return; }
      var generations0, claims0, session0 := generations, claims, session;
      version, created := FixVersion(key, scope, content, generation, fence, expected);
      if version.Some? {
        var ok := TakeOver(key, scope, content, version.value, generation, fence, transition);
        if !ok {
          generations, claims, session := generations0, claims0, session0;
          version := None;
        }
      }
    }

    /** The second half: the claim is taken over and the session is told. */
    method TakeOver(key: Key, scope: Scope, content: Json, version: nat, generation: nat, fence: nat, transition: nat)
      returns (ok: bool)
      requires key in claims
      modifies `claims, `session
      ensures var t := TakenOver(old(Current()), version, key, scope, content, generation, fence, transition);
        if t.Some? then ok && Current() == t.value else !ok && Current() == old(Current())
    {
      ok := false;
      var chain: Chain := if scope in generations then generations[scope] else map[];
      assert chain == ChainOf(Current(), scope);
      if version !in chain || chain[version].digest != Sha256(content) { return; }
      var row := claims[key];
      if row.state == Confirmed || row.state == Rejected { return true; }
      var wanted := Pending(version, Sha256(content), transition);
      if session.pending.Some? && session.pending.value != wanted { return; }
      claims := claims[key := row.(state := Started, generation := generation, fence := fence)];
      if !(session.pending.None? && session.synced == Some((version, Sha256(content)))) {
        session := Session(Some(wanted), None);
      }
      ok := true;
    }

    /** `transition`: only for the claim the caller saw, while it owns the session. */
    method MoveClaim(key: Key, seen: Claim, to: ReloadState, version: Option<nat>, owner: bool) returns (ok: bool)
      modifies `claims
      ensures Current() == Step(old(Current()), Move(key, seen, to, version, owner))
      ensures ok <==>
        && owner && key in old(claims)
        && old(claims)[key].(version := seen.version) == seen
        && (seen.state, to) in {(Claimed, Started), (Claimed, Confirmed), (Claimed, Rejected), (Claimed, Unknown),
                                (Started, Confirmed), (Started, Rejected), (Started, Unknown), (Unknown, Confirmed)}
      ensures claims == if ok then old(claims)[key := old(claims)[key].(
                                     state := to, version := if version.Some? then version else old(claims)[key].version)]
                        else old(claims)
    {
      ok := Allowed(seen.state, to) && owner && key in claims
            && claims[key].digest == seen.digest && claims[key].state == seen.state
            && claims[key].generation == seen.generation && claims[key].fence == seen.fence;
      if ok {
        claims := claims[key := claims[key].(state := to, version := if version.Some? then version else claims[key].version)];
      }
    }
  }
}
