/**
  Saving an edited server or proxy profile: several commands against a versioned backend, any of
  which may fail without effect while other writers interleave. Sources:
  src/app/useServerProfileMutations.ts, src/app/useProxyProfileMutations.ts; the backend's rules are
  those of src-tauri/src/configuration/repository.rs.
 */
module ProfileSave {
  import opened Prelude

  datatype Kind =
    | SensitiveEnvironment | BearerToken
    | HttpBasicPassword | HttpBearerToken | Socks5Password | SshPrivateKeyPassphrase | SshPassword

  datatype Credential = Credential(kind: Kind, secret: string)

  // The type of a configuration together with its way of authenticating.
  datatype Family =
    | LocalStdio | RemoteBearer | RemoteNone
    | HttpBasic | HttpBearer | HttpNone | SocksPassword | SocksNone | SshKey | SshWithPassword | SshAgent

  // `address`: origin, host and port, or executable. `account`: what else a credential is bound to
  // exactly. `names`: the names a credential may not be exposed to anew.
  datatype Config = Config(family: Family, address: string, account: string, names: set<string>, rest: string)

  datatype HostKey = HostKey(address: string, algorithm: string, fingerprint: string)

  datatype Profile = Profile(version: nat, config: Config, credential: Option<Credential>, hostKey: Option<HostKey>)

  function KindOf(config: Config): Option<Kind> {
    match config.family
    case LocalStdio => Some(SensitiveEnvironment)
    case RemoteBearer => Some(BearerToken)
    case HttpBasic => Some(HttpBasicPassword)
    case HttpBearer => Some(HttpBearerToken)
    case SocksPassword => Some(Socks5Password)
    case SshKey => Some(SshPrivateKeyPassphrase)
    case SshWithPassword => Some(SshPassword)
    case _ => None
  }

  predicate IsSsh(config: Config) {
    config.family.SshKey? || config.family.SshWithPassword? || config.family.SshAgent?
  }

  // A stored credential would be used for something it was not entered for.
  predicate BindingChanged(before: Config, after: Config) {
    before.family != after.family || before.address != after.address || before.account != after.account
    || !(after.names <= before.names)
  }

  predicate ValidProfile(p: Profile) {
    && (p.credential.Some? ==> KindOf(p.config) == Some(p.credential.value.kind))
    && (p.hostKey.Some? ==> IsSsh(p.config) && p.config.address == p.hostKey.value.address)
  }

  // ---- The backend ------------------------------------------------------------------------------------

  datatype Command =
    | Create(config: Config)
    | Update(expected: nat, config: Config)
    | SetCredential(expected: nat, credential: Credential)
    | ClearCredential(expected: nat, kind: Kind)
    | ConfirmHostKey(expected: nat, hostKey: HostKey)

  predicate MayUpdate(p: Profile, config: Config) {
    && (p.credential.Some? ==> !BindingChanged(p.config, config))
    && (p.hostKey.Some? ==> IsSsh(config) && p.config.address == config.address)
  }

  // The profile after the command, or None if the backend refuses it.
  function Execute(row: Option<Profile>, command: Command): Option<Profile> {
    match command
    case Create(config) => if row.None? then Some(Profile(1, config, None, None)) else None
    case Update(expected, config) =>
      if row.Some? && row.value.version == expected && MayUpdate(row.value, config)
      then Some(row.value.(version := expected + 1, config := config)) else None
    case SetCredential(expected, credential) =>
      if row.Some? && row.value.version == expected && KindOf(row.value.config) == Some(credential.kind)
      then Some(row.value.(version := expected + 1, credential := Some(credential))) else None
    case ClearCredential(expected, kind) =>
      if row.None? || row.value.version != expected || KindOf(row.value.config) != Some(kind) then None
      else if row.value.credential.None? then row
      else Some(row.value.(version := expected + 1, credential := None))
    case ConfirmHostKey(expected, hostKey) =>
      if row.Some? && row.value.version == expected && IsSsh(row.value.config)
         && row.value.config.address == hostKey.address && row.value.hostKey.None?
      then Some(row.value.(version := expected + 1, hostKey := Some(hostKey))) else None
  }

  // What happens before and during one command: another writer may store a newer profile or delete
  // it, and the command may fail for any reason.
  datatype Turn = Turn(stored: Option<Profile>, deleted: bool, fails: bool)

  const QuietTurn := Turn(None, false, false)

  // The saved row, what the environment will do, our commands that took effect, and the profiles
  // confirmed to the store.
  datatype Env = Env(row: Option<Profile>, turns: seq<Turn>, journal: seq<Command>, confirmed: seq<Profile>)

  function Interfere(row: Option<Profile>, turn: Turn): Option<Profile> {
    if row.None? || turn.deleted then None
    else if turn.stored.Some? && turn.stored.value.version > row.value.version then turn.stored
    else row
  }

  datatype Reply = Reply(env: Env, profile: Option<Profile>)

  function Call(env: Env, command: Command): Reply {
    var turn := if env.turns == [] then QuietTurn else env.turns[0];
    var rest := if env.turns == [] then [] else env.turns[1..];
    var row := Interfere(env.row, turn);
    var result := if turn.fails then None else Execute(row, command);
    if result.None? then Reply(env.(row := row, turns := rest), None)
    else Reply(Env(result, rest, if result == row then env.journal else env.journal + [command], env.confirmed + [result.value]),
               result)
  }

  // ---- Saving -------------------------------------------------------------------------------------------

  datatype Intent = Keep | Set(credential: Credential) | Clear(kind: Kind)

  datatype Submission = Submission(config: Config, intent: Intent, hostKey: Option<HostKey>)

  datatype Effect =
    | ConfigurationSavedCredentialNotSaved
    | CredentialClearedConfigurationNotSaved
    | ConfigurationSavedHostKeyNotSaved

  datatype Outcome = Saved(profile: Profile) | Partial(profile: Profile, effect: Effect) | Failed

  datatype Done = Done(env: Env, outcome: Outcome)

  function SavedOr(reply: Reply, otherwise: Outcome): Done {
    Done(reply.env, if reply.profile.Some? then Saved(reply.profile.value) else otherwise)
  }

  function CreateServer(env: Env, submission: Submission): Done {
    if submission.intent.Clear? then Done(env, Failed)
    else
      var created := Call(env, Create(submission.config));
      if created.profile.None? then Done(created.env, Failed)
      else if submission.intent.Keep? then Done(created.env, Saved(created.profile.value))
      else
        var p := created.profile.value;
        SavedOr(Call(created.env, SetCredential(p.version, submission.intent.credential)),
                Partial(p, ConfigurationSavedCredentialNotSaved))
  }

  function StoredKind(p: Profile): Option<Kind> {
    if p.credential.None? then None else KindOf(p.config)
  }

  // Clears the credential, then stores the configuration.
  function ClearThenUpdate(env: Env, original: Profile, kind: Kind, submission: Submission): Done {
    var cleared := Call(env, ClearCredential(original.version, kind));
    if cleared.profile.None? then Done(cleared.env, Failed)
    else
      SavedOr(Call(cleared.env, Update(cleared.profile.value.version, submission.config)),
              Partial(cleared.profile.value, CredentialClearedConfigurationNotSaved))
  }

  function ThenSet(done: Done, credential: Credential): Done {
    if !done.outcome.Saved? then done
    else
      var p := done.outcome.profile;
      SavedOr(Call(done.env, SetCredential(p.version, credential)), Partial(p, ConfigurationSavedCredentialNotSaved))
  }

  function EditServer(env: Env, original: Profile, submission: Submission): Done {
    match submission.intent
    case Keep => SavedOr(Call(env, Update(original.version, submission.config)), Failed)
    case Clear(kind) => ClearThenUpdate(env, original, kind, submission)
    case Set(credential) =>
      if original.credential.Some? && BindingChanged(original.config, submission.config) then
        if StoredKind(original).None? then Done(env, Failed)
        else ThenSet(ClearThenUpdate(env, original, StoredKind(original).value, submission), credential)
      else ThenSet(SavedOr(Call(env, Update(original.version, submission.config)), Failed), credential)
  }

  function Finalize(env: Env, p: Profile, hostKey: Option<HostKey>): Done {
    if hostKey.None? || p.hostKey == hostKey then Done(env, Saved(p))
    else SavedOr(Call(env, ConfirmHostKey(p.version, hostKey.value)), Partial(p, ConfigurationSavedHostKeyNotSaved))
  }

  function ThenFinalize(done: Done, hostKey: Option<HostKey>): Done {
    if done.outcome.Saved? then Finalize(done.env, done.outcome.profile, hostKey) else done
  }

  function CreateProxy(env: Env, submission: Submission): Done {
    var created := Call(env, Create(submission.config));
    if created.profile.None? then Done(created.env, Failed)
    else match submission.intent
      case Keep => Finalize(created.env, created.profile.value, submission.hostKey)
      case Clear(_) => Done(created.env, Failed)
      case Set(credential) =>
        ThenFinalize(ThenSet(Done(created.env, Saved(created.profile.value)), credential), submission.hostKey)
  }

  function EditProxy(env: Env, original: Profile, submission: Submission): Done {
    match submission.intent
    case Keep => ThenFinalize(SavedOr(Call(env, Update(original.version, submission.config)), Failed), submission.hostKey)
    case Clear(kind) => ThenFinalize(ClearThenUpdate(env, original, kind, submission), submission.hostKey)
    case Set(credential) =>
      var updated := if StoredKind(original).Some? && StoredKind(original).value != credential.kind
                     then ClearThenUpdate(env, original, StoredKind(original).value, submission)
                     else SavedOr(Call(env, Update(original.version, submission.config)), Failed);
      ThenFinalize(ThenSet(updated, credential), submission.hostKey)
  }

  // ---- What a run of commands may have done -----------------------------------------------------------------

  // The row is the profile the caller knows, or a newer one, or gone.
  ghost predicate Knows(env: Env, p: Profile) {
    env.row.Some? ==> env.row.value.version > p.version || env.row.value == p
  }

  function ExecuteAll(row: Option<Profile>, commands: seq<Command>): Option<Profile> {
    if commands == [] then row
    else Execute(ExecuteAll(row, commands[..|commands| - 1]), commands[|commands| - 1])
  }

  function VersionOf(row: Option<Profile>): nat {
    if row.Some? then row.value.version else 0
  }

  // What the save has done to the journal since it began.
  function Applied(before: Env, after: Env): seq<Command>
    requires |before.journal| <= |after.journal|
  {
    after.journal[|before.journal|..]
  }

  // The commands that took effect since `before` lead from `start` to p, each a version further, with
  // no other writer in between.
  ghost predicate Reached(before: Env, start: Option<Profile>, now: Env, p: Profile) {
    && Knows(now, p)
    && |before.journal| <= |now.journal| && now.journal[..|before.journal|] == before.journal
    && ExecuteAll(start, Applied(before, now)) == Some(p)
    && p.version == VersionOf(start) + |Applied(before, now)|
  }

  // A command sent with the known version is carried out on exactly the known profile or not at all.
  lemma CommandActsOnTheKnownProfile(env: Env, p: Profile, command: Command)
    requires Knows(env, p) && !command.Create? && command.expected == p.version
    ensures var r := Call(env, command);
            && (r.profile.Some? ==>
                  && r.profile == Execute(Some(p), command)
                  && r.env.row == r.profile
                  && r.env.confirmed == env.confirmed + [r.profile.value]
                  && r.env.journal == env.journal + (if r.profile.value == p then [] else [command]))
            && (r.profile.None? ==> Knows(r.env, p) && r.env.journal == env.journal && r.env.confirmed == env.confirmed)
  {
  }

  lemma ExecuteAdvances(p: Profile, command: Command)
    requires !command.Create? && Execute(Some(p), command).Some?
    ensures var q := Execute(Some(p), command).value;
            q == p || q.version == p.version + 1
  {
  }

  lemma ExecuteOneMore(start: Option<Profile>, commands: seq<Command>, command: Command)
    ensures ExecuteAll(start, commands + [command]) == Execute(ExecuteAll(start, commands), command)
  {
    assert (commands + [command])[..|commands|] == commands;
  }

  lemma CallReaches(before: Env, start: Option<Profile>, now: Env, p: Profile, command: Command)
    requires Reached(before, start, now, p) && !command.Create? && command.expected == p.version
    ensures var r := Call(now, command);
            && Reached(before, start, r.env, if r.profile.Some? then r.profile.value else p)
            && (r.profile.Some? ==> r.profile == Execute(Some(p), command) && r.env.confirmed == now.confirmed + [r.profile.value])
            && (r.profile.None? ==> r.env.journal == now.journal && r.env.confirmed == now.confirmed)
  {
    hide Call, Execute, ExecuteAll;
    CommandActsOnTheKnownProfile(now, p, command);
    var r := Call(now, command);
    if r.profile.Some? {
      ExecuteAdvances(p, command);
      if r.profile.value != p {
        ExecuteOneMore(start, Applied(before, now), command);
        assert Applied(before, r.env) == Applied(before, now) + [command];
        assert r.env.journal[..|before.journal|] == now.journal[..|before.journal|];
      } else {
        assert r.env.journal == now.journal;
      }
    }
  }

  lemma CreateReaches(env: Env, config: Config)
    requires env.row.None?
    ensures var r := Call(env, Create(config));
            && (r.profile.Some? ==>
                  && r.profile.value == Profile(1, config, None, None)
                  && Reached(env, None, r.env, r.profile.value)
                  && Applied(env, r.env) == [Create(config)]
                  && r.env.confirmed == env.confirmed + [r.profile.value])
            && (r.profile.None? ==> r.env.journal == env.journal && r.env.confirmed == env.confirmed)
  {
    var r := Call(env, Create(config));
    if r.profile.Some? {
      assert Applied(env, r.env) == [Create(config)];
      assert [Create(config)][..0] == [];
    }
  }

  lemma NothingDoneYet(env: Env, p: Profile)
    requires Knows(env, p)
    ensures Reached(env, Some(p), env, p)
  {
  }

  // ---- What a credential is used for ---------------------------------------------------------------------------

  lemma CommandsKeepProfilesValid(p: Profile, command: Command)
    requires ValidProfile(p) && !command.Create? && Execute(Some(p), command).Some?
    ensures ValidProfile(Execute(Some(p), command).value)
  {
  }

  // Over any commands that leave the credential alone: it stays, and with it the way of authenticating,
  // the address and the account it was entered for; it is exposed to no further name.
  lemma {:induction false} CredentialKeepsItsBinding(p: Profile, commands: seq<Command>)
    requires ValidProfile(p) && p.credential.Some? && ExecuteAll(Some(p), commands).Some?
    requires forall command <- commands :: command.Update? || command.ConfirmHostKey?
    ensures var q := ExecuteAll(Some(p), commands).value;
            && ValidProfile(q) && q.credential == p.credential
            && (q.config.family, q.config.address, q.config.account) == (p.config.family, p.config.address, p.config.account)
            && q.config.names <= p.config.names
    decreases |commands|
  {
    if commands != [] {
      var init, last := commands[..|commands| - 1], commands[|commands| - 1];
      assert last in commands && forall command <- init :: command in commands;
      assert ExecuteAll(Some(p), init).Some?;
      CredentialKeepsItsBinding(p, init);
      CommandsKeepProfilesValid(ExecuteAll(Some(p), init).value, last);
    }
  }

  // A confirmed host key stays with the host it was confirmed for, whatever is done to the profile.
  lemma {:induction false} HostKeyKeepsItsHost(p: Profile, commands: seq<Command>)
    requires ValidProfile(p) && p.hostKey.Some? && ExecuteAll(Some(p), commands).Some?
    requires forall command <- commands :: !command.Create?
    ensures var q := ExecuteAll(Some(p), commands).value;
            ValidProfile(q) && q.hostKey == p.hostKey && q.config.address == p.config.address && IsSsh(q.config)
    decreases |commands|
  {
    if commands != [] {
      var init, last := commands[..|commands| - 1], commands[|commands| - 1];
      assert last in commands && forall command <- init :: command in commands;
      assert ExecuteAll(Some(p), init).Some?;
      HostKeyKeepsItsHost(p, init);
      CommandsKeepProfilesValid(ExecuteAll(Some(p), init).value, last);
    }
  }

  // ---- Outcomes are truthful ----------------------------------------------------------------------------------

  // The profile the submission asks for, but for its version.
  function Wanted(original: Profile, submission: Submission): Profile {
    original.(config := submission.config,
              credential := (match submission.intent case Keep => original.credential
                                                     case Set(credential) => Some(credential)
                                                     case Clear(_) => None),
              hostKey := if submission.hostKey.Some? then submission.hostKey else original.hostKey)
  }

  predicate SameButVersion(p: Profile, q: Profile) {
    p == q.(version := p.version)
  }

  // What an outcome claims about the named profile; `cleared` if replacing the credential takes
  // clearing the stored one first.
  ghost predicate Claim(original: Profile, submission: Submission, cleared: bool, outcome: Outcome)
    requires !outcome.Failed?
  {
    match outcome
    case Saved(p) => SameButVersion(p, Wanted(original, submission))
    case Partial(p, effect) =>
      match effect
      case ConfigurationSavedCredentialNotSaved =>
        submission.intent.Set?
        && SameButVersion(p, original.(config := submission.config, credential := if cleared then None else original.credential))
      case CredentialClearedConfigurationNotSaved =>
        (submission.intent.Clear? || (submission.intent.Set? && cleared)) && SameButVersion(p, original.(credential := None))
      case ConfigurationSavedHostKeyNotSaved =>
        submission.hostKey.Some? && submission.hostKey != original.hostKey
        && SameButVersion(p, Wanted(original, submission.(hostKey := None)))
  }

  // "Failed" means that nothing was done. Any other outcome names the profile that results from
  // exactly the commands that took effect, it is what the outcome claims, and the store shows it.
  ghost predicate Truthful(env: Env, start: Option<Profile>, original: Profile, submission: Submission, cleared: bool, done: Done) {
    if done.outcome.Failed? then done.env.journal == env.journal && done.env.confirmed == env.confirmed
    else
      && Reached(env, start, done.env, done.outcome.profile)
      && Claim(original, submission, cleared, done.outcome)
      && done.env.confirmed != [] && done.env.confirmed[|done.env.confirmed| - 1] == done.outcome.profile
  }

  lemma UpdateIsTruthful(env: Env, original: Profile, submission: Submission, cleared: bool)
    requires Knows(env, original)
    ensures var done := SavedOr(Call(env, Update(original.version, submission.config)), Failed);
            Truthful(env, Some(original), original, Submission(submission.config, Keep, None), cleared, done)
            && !done.outcome.Partial?
  {
    NothingDoneYet(env, original);
    CallReaches(env, Some(original), env, original, Update(original.version, submission.config));
    hide Reached, Call;
  }

  lemma ClearThenUpdateIsTruthful(env: Env, original: Profile, kind: Kind, submission: Submission, cleared: bool)
    requires Knows(env, original) && (submission.intent.Clear? || (submission.intent.Set? && cleared))
    ensures var done := ClearThenUpdate(env, original, kind, submission);
            && (done.outcome.Saved? ==> Truthful(env, Some(original), original, Submission(submission.config, Clear(kind), None), cleared, done))
            && (!done.outcome.Saved? ==> Truthful(env, Some(original), original, submission, cleared, done))
            && (done.outcome.Partial? ==> done.outcome.effect.CredentialClearedConfigurationNotSaved?)
  {
    NothingDoneYet(env, original);
    CallReaches(env, Some(original), env, original, ClearCredential(original.version, kind));
    var r := Call(env, ClearCredential(original.version, kind));
    if r.profile.Some? {
      CallReaches(env, Some(original), r.env, r.profile.value, Update(r.profile.value.version, submission.config));
    }
    hide Reached, Call;
  }

  // A credential is stored after the configuration was.
  lemma ThenSetIsTruthful(env: Env, start: Option<Profile>, original: Profile, submission: Submission, cleared: bool, done: Done)
    requires submission.intent.Set? && submission.hostKey.None?
    requires done.outcome.Saved? ==>
               && Reached(env, start, done.env, done.outcome.profile)
               && done.env.confirmed != [] && done.env.confirmed[|done.env.confirmed| - 1] == done.outcome.profile
               && SameButVersion(done.outcome.profile,
                                 original.(config := submission.config, credential := if cleared then None else original.credential))
    requires !done.outcome.Saved? ==> Truthful(env, start, original, submission, cleared, done)
    ensures Truthful(env, start, original, submission, cleared, ThenSet(done, submission.intent.credential))
  {
    if done.outcome.Saved? {
      var p := done.outcome.profile;
      CallReaches(env, start, done.env, p, SetCredential(p.version, submission.intent.credential));
    }
    hide Reached, Call;
  }

  lemma FinalizeIsTruthful(env: Env, start: Option<Profile>, original: Profile, submission: Submission, cleared: bool, done: Done)
    requires Truthful(env, start, original, submission.(hostKey := None), cleared, done)
    requires done.outcome.Partial? ==> !done.outcome.effect.ConfigurationSavedHostKeyNotSaved?
    ensures Truthful(env, start, original, submission, cleared, ThenFinalize(done, submission.hostKey))
  {
    if done.outcome.Saved? && submission.hostKey.Some? && done.outcome.profile.hostKey != submission.hostKey {
      var p := done.outcome.profile;
      CallReaches(env, start, done.env, p, ConfirmHostKey(p.version, submission.hostKey.value));
    }
    hide Reached, Call;
  }

  predicate ServerClears(original: Profile, submission: Submission) {
    submission.intent.Set? && original.credential.Some? && BindingChanged(original.config, submission.config)
  }

  predicate ProxyClears(original: Profile, submission: Submission) {
    submission.intent.Set? && StoredKind(original).Some? && StoredKind(original).value != submission.intent.credential.kind
  }

  lemma ServerEditIsTruthful(env: Env, original: Profile, submission: Submission)
    requires Knows(env, original) && submission.hostKey.None?
    ensures Truthful(env, Some(original), original, submission, ServerClears(original, submission),
                     EditServer(env, original, submission))
  {
    var cleared := ServerClears(original, submission);
    match submission.intent {
      case Keep => UpdateIsTruthful(env, original, submission, cleared);
      case Clear(kind) => ClearThenUpdateIsTruthful(env, original, kind, submission, cleared);
      case Set(credential) =>
        if !cleared {
          UpdateIsTruthful(env, original, submission, cleared);
          ThenSetIsTruthful(env, Some(original), original, submission, cleared,
                            SavedOr(Call(env, Update(original.version, submission.config)), Failed));
        } else if StoredKind(original).Some? {
          var kind := StoredKind(original).value;
          ClearThenUpdateIsTruthful(env, original, kind, submission, cleared);
          ThenSetIsTruthful(env, Some(original), original, submission, cleared, ClearThenUpdate(env, original, kind, submission));
        }
    }
    hide Reached, Call, ClearThenUpdate, ThenSet, BindingChanged;
  }

  lemma ServerCreateIsTruthful(env: Env, submission: Submission)
    requires env.row.None? && submission.hostKey.None?
    ensures Truthful(env, None, Profile(0, submission.config, None, None), submission, false, CreateServer(env, submission))
  {
    CreateReaches(env, submission.config);
    var created := Call(env, Create(submission.config));
    if created.profile.Some? && submission.intent.Set? {
      ThenSetIsTruthful(env, None, Profile(0, submission.config, None, None), submission, false,
                        Done(created.env, Saved(created.profile.value)));
    }
    hide Reached, Call;
  }

  lemma ProxyEditIsTruthful(env: Env, original: Profile, submission: Submission)
    requires Knows(env, original)
    ensures Truthful(env, Some(original), original, submission, ProxyClears(original, submission),
                     EditProxy(env, original, submission))
  {
    var cleared, plain := ProxyClears(original, submission), submission.(hostKey := None);
    var updated := SavedOr(Call(env, Update(original.version, submission.config)), Failed);
    UpdateIsTruthful(env, original, plain, cleared);
    match submission.intent {
      case Keep => FinalizeIsTruthful(env, Some(original), original, submission, cleared, updated);
      case Clear(kind) =>
        ClearThenUpdateIsTruthful(env, original, kind, plain, cleared);
        FinalizeIsTruthful(env, Some(original), original, submission, cleared, ClearThenUpdate(env, original, kind, plain));
      case Set(credential) =>
        var first := if cleared then ClearThenUpdate(env, original, StoredKind(original).value, plain) else updated;
        if cleared {
          ClearThenUpdateIsTruthful(env, original, StoredKind(original).value, plain, cleared);
        }
        ThenSetIsTruthful(env, Some(original), original, plain, cleared, first);
        FinalizeIsTruthful(env, Some(original), original, submission, cleared, ThenSet(first, credential));
    }
    hide Reached, Call, ThenSet, ThenFinalize, StoredKind;
  }

  // Creating a proxy is truthful as well, except that it may report failure after having created:
  // exactly when asked to clear a credential.
  lemma ProxyCreateIsTruthfulIff(env: Env, submission: Submission)
    requires env.row.None?
    ensures Truthful(env, None, Profile(0, submission.config, None, None), submission, false, CreateProxy(env, submission))
            <==> !(submission.intent.Clear? && Call(env, Create(submission.config)).profile.Some?)
  {
    var blank, plain := Profile(0, submission.config, None, None), submission.(hostKey := None);
    CreateReaches(env, submission.config);
    var created := Call(env, Create(submission.config));
    if created.profile.Some? && !submission.intent.Clear? {
      var first := Done(created.env, Saved(created.profile.value));
      if submission.intent.Set? {
        ThenSetIsTruthful(env, None, blank, plain, false, first);
        FinalizeIsTruthful(env, None, blank, submission, false, ThenSet(first, submission.intent.credential));
      } else {
        FinalizeIsTruthful(env, None, blank, submission, false, first);
      }
    }
    hide Reached, Call, ThenSet, Finalize;
  }

  // ---- No foreign change is overwritten ----------------------------------------------------------------------

  // If another writer was faster, an edit changes nothing at all.
  lemma StaleEditChangesNothing(env: Env, original: Profile, submission: Submission)
    requires env.row.None? || env.row.value.version > original.version
    ensures EditServer(env, original, submission).outcome.Failed?
    ensures EditServer(env, original, submission).env.journal == env.journal
    ensures EditProxy(env, original, submission).outcome.Failed?
    ensures EditProxy(env, original, submission).env.journal == env.journal
  {
    StaleCommandFails(env, original.version, Update(original.version, submission.config));
    forall kind {
      StaleCommandFails(env, original.version, ClearCredential(original.version, kind));
    }
    hide Call;
  }

  lemma StaleCommandFails(env: Env, version: nat, command: Command)
    requires env.row.None? || env.row.value.version > version
    requires !command.Create? && command.expected == version
    ensures Call(env, command).profile.None? && Call(env, command).env.journal == env.journal
  {
  }

  // ---- Undisturbed saves ---------------------------------------------------------------------------------------

  ghost predicate Quiet(env: Env, original: Profile) {
    env.turns == [] && env.row == Some(original) && ValidProfile(original)
  }

  // Left alone, a server edit is saved exactly if the credential it leaves behind suits the configuration.
  lemma QuietServerEditIsSavedIff(env: Env, original: Profile, submission: Submission)
    requires Quiet(env, original) && original.hostKey.None?
    ensures EditServer(env, original, submission).outcome.Saved? <==>
              match submission.intent
              case Keep => original.credential.Some? ==> !BindingChanged(original.config, submission.config)
              case Clear(kind) => KindOf(original.config) == Some(kind)
              case Set(credential) => KindOf(submission.config) == Some(credential.kind)
  {
    hide KindOf, BindingChanged;
  }

  predicate HostKeyAccepted(original: Profile, submission: Submission) {
    && (original.hostKey.Some? ==> IsSsh(submission.config) && original.config.address == submission.config.address)
    && (submission.hostKey.Some? && submission.hostKey != original.hostKey ==>
          original.hostKey.None? && IsSsh(submission.config) && submission.config.address == submission.hostKey.value.address)
  }

  // A proxy edit does not clear a credential of the same kind first, so it is refused when the new
  // credential comes with a new binding.
  lemma QuietProxyEditIsSavedIff(env: Env, original: Profile, submission: Submission)
    requires Quiet(env, original)
    ensures EditProxy(env, original, submission).outcome.Saved? <==>
              && HostKeyAccepted(original, submission)
              && (match submission.intent
                  case Keep => original.credential.Some? ==> !BindingChanged(original.config, submission.config)
                  case Clear(kind) => KindOf(original.config) == Some(kind)
                  case Set(credential) =>
                    && KindOf(submission.config) == Some(credential.kind)
                    && (StoredKind(original) == Some(credential.kind) ==> !BindingChanged(original.config, submission.config)))
  {
    hide KindOf, BindingChanged;
  }

  // Moving a proxy to another host along with a new password of the same kind fails, where the same
  // edit of a server succeeds.
  lemma ProxyEditsDoNotRebind()
    ensures var before := Profile(1, Config(SocksPassword, "a:1", "me", {}, ""), Some(Credential(Socks5Password, "old")), None);
            var wanted := Submission(before.config.(address := "b:1"), Set(Credential(Socks5Password, "new")), None);
            var env := Env(Some(before), [], [], []);
            Quiet(env, before) && EditProxy(env, before, wanted).outcome.Failed? && EditServer(env, before, wanted).outcome.Saved?
  {
  }

  // ---- The programs ----------------------------------------------------------------------------------------------

  class Commands {
    var row: Option<Profile>
    var turns: seq<Turn>
    var journal: seq<Command>
    var confirmed: seq<Profile>

    ghost function View(): Env
      reads this
    {
      Env(row, turns, journal, confirmed)
    }

    constructor (env: Env)
      ensures View() == env
    {
      row, turns, journal, confirmed := env.row, env.turns, env.journal, env.confirmed;
    }

    // Sends one command; a profile that comes back is confirmed to the store.
    method Send(command: Command) returns (profile: Option<Profile>)
      modifies this
      ensures View() == old(Call(View(), command).env) && profile == old(Call(View(), command).profile)
    {
      var turn := QuietTurn;
      if turns != [] {
        turn, turns := turns[0], turns[1..];
      }
      if row.None? || turn.deleted {
        row := None;
      } else if turn.stored.Some? && turn.stored.value.version > row.value.version {
        row := turn.stored;
      }
      profile := if turn.fails then None else Execute(row, command);
      if profile.Some? {
        if profile != row {
          journal := journal + [command];
        }
        row, confirmed := profile, confirmed + [profile.value];
      }
    }
  }

  method ExecuteServerCreate(commands: Commands, submission: Submission) returns (outcome: Outcome)
    modifies commands
    ensures Done(commands.View(), outcome) == old(CreateServer(commands.View(), submission))
  {
    if submission.intent.Clear? {
      return Failed;
    }
    var created := commands.Send(Create(submission.config));
    if created.None? {
      return Failed;
    }
    if submission.intent.Keep? {
      return Saved(created.value);
    }
    var updated := commands.Send(SetCredential(created.value.version, submission.intent.credential));
    outcome := if updated.Some? then Saved(updated.value) else Partial(created.value, ConfigurationSavedCredentialNotSaved);
  }

  method ExecuteServerEdit(commands: Commands, original: Profile, submission: Submission) returns (outcome: Outcome)
    modifies commands
    ensures Done(commands.View(), outcome) == old(EditServer(commands.View(), original, submission))
  {
    hide Call, BindingChanged;
    var expectedVersion := original.version;
    if submission.intent.Keep? {
      var updated := commands.Send(Update(expectedVersion, submission.config));
      return if updated.Some? then Saved(updated.value) else Failed;
    }
    if submission.intent.Clear? {
      var cleared := commands.Send(ClearCredential(expectedVersion, submission.intent.kind));
      if cleared.None? {
        return Failed;
      }
      var updated := commands.Send(Update(cleared.value.version, submission.config));
      return if updated.Some? then Saved(updated.value) else Partial(cleared.value, CredentialClearedConfigurationNotSaved);
    }
    var updatedProfile: Option<Profile>;
    if original.credential.Some? && BindingChanged(original.config, submission.config) {
      if StoredKind(original).None? {
        return Failed;
      }
      var cleared := commands.Send(ClearCredential(expectedVersion, StoredKind(original).value));
      if cleared.None? {
        return Failed;
      }
      expectedVersion := cleared.value.version;
      updatedProfile := commands.Send(Update(expectedVersion, submission.config));
      if updatedProfile.None? {
        return Partial(cleared.value, CredentialClearedConfigurationNotSaved);
      }
    } else {
      updatedProfile := commands.Send(Update(expectedVersion, submission.config));
      if updatedProfile.None? {
        return Failed;
      }
    }
    expectedVersion := updatedProfile.value.version;
    var profile := commands.Send(SetCredential(expectedVersion, submission.intent.credential));
    outcome := if profile.Some? then Saved(profile.value) else Partial(updatedProfile.value, ConfigurationSavedCredentialNotSaved);
  }

  method FinalizeProxy(commands: Commands, profile: Profile, hostKey: Option<HostKey>) returns (outcome: Outcome)
    modifies commands
    ensures Done(commands.View(), outcome) == old(Finalize(commands.View(), profile, hostKey))
  {
    if hostKey.None? || profile.hostKey == hostKey {
      return Saved(profile);
    }
    var keyed := commands.Send(ConfirmHostKey(profile.version, hostKey.value));
    outcome := if keyed.Some? then Saved(keyed.value) else Partial(profile, ConfigurationSavedHostKeyNotSaved);
  }

  method ExecuteProxyCreate(commands: Commands, submission: Submission) returns (outcome: Outcome)
    modifies commands
    ensures Done(commands.View(), outcome) == old(CreateProxy(commands.View(), submission))
  {
    hide Call;
    var created := commands.Send(Create(submission.config));
    if created.None? {
      return Failed;
    }
    if submission.intent.Keep? {
      outcome := FinalizeProxy(commands, created.value, submission.hostKey);
      return;
    }
    if submission.intent.Clear? {
      return Failed;
    }
    var updated := commands.Send(SetCredential(created.value.version, submission.intent.credential));
    if updated.None? {
      return Partial(created.value, ConfigurationSavedCredentialNotSaved);
    }
    outcome := FinalizeProxy(commands, updated.value, submission.hostKey);
  }

  method ExecuteProxyEdit(commands: Commands, original: Profile, submission: Submission) returns (outcome: Outcome)
    modifies commands
    ensures Done(commands.View(), outcome) == old(EditProxy(commands.View(), original, submission))
  {
    hide Call, Finalize;
    var latest, cleared := original, false;
    var kind := if submission.intent.Clear? then Some(submission.intent.kind) else StoredKind(original);
    if submission.intent.Clear? || (submission.intent.Set? && kind.Some? && kind.value != submission.intent.credential.kind) {
      var reply := commands.Send(ClearCredential(latest.version, kind.value));
      if reply.None? {
        return Failed;
      }
      latest, cleared := reply.value, true;
    }
    var updated := commands.Send(Update(latest.version, submission.config));
    if updated.None? {
      return if cleared then Partial(latest, CredentialClearedConfigurationNotSaved) else Failed;
    }
    latest := updated.value;
    if submission.intent.Set? {
      var reply := commands.Send(SetCredential(latest.version, submission.intent.credential));
      if reply.None? {
        return Partial(latest, ConfigurationSavedCredentialNotSaved);
      }
      latest := reply.value;
    }
    outcome := FinalizeProxy(commands, latest, submission.hostKey);
  }
}
