/**
  The Python side's manifest: what its constructor accepts, and what to_dict gives back.

  Which characters str.strip removes and how uuid.UUID spells an id are parameters.
*/
module Manifest {
  import opened Prelude
  import opened Text
  import Tasks

  // ---------------------------------------------------------------------------
  // YAML values
  // ---------------------------------------------------------------------------

  datatype Key = Name(name: string) | OtherKey(id: int)

  /** `Other` is any further kind of value: a float, a date, a set. */
  datatype Yaml =
    | Null
    | Bool(flag: bool)
    | Num(number: int)
    | Str(text: string)
    | Lst(items: seq<Yaml>)
    | Dict(entries: map<Key, Yaml>)
    | Other(truthy: bool, id: int)

  predicate Truthy(y: Yaml) {
    match y
    case Null => false
    case Bool(flag) => flag
    case Num(n) => n != 0
    case Str(text) => text != ""
    case Lst(items) => items != []
    case Dict(entries) => entries != map[]
    case Other(truthy, _) => truthy
  }

  /** str.strip and uuid.UUID; the canonical spelling of an id is its own. */
  datatype Python = Python(space: char -> bool, uuid: string -> Option<string>)
  {
    ghost predicate Canonical() {
      forall s :: uuid(s).Some? ==> uuid(uuid(s).value) == uuid(s)
    }
  }

  /** The dict as the constructor reads it: a missing key reads as None, other keys are ignored. */
  datatype Fields = Fields(
    image: Yaml, arch: Yaml, packages: Yaml, repositories: Yaml, sources: Yaml, environment: Yaml,
    secrets: Yaml, tasks: Yaml, triggers: Yaml, shell: Yaml, artifacts: Yaml, oauth: Yaml)

  // ---------------------------------------------------------------------------
  // Tasks
  // ---------------------------------------------------------------------------

  datatype Task = Task(name: string, script: string)

  function StripLeft(space: char -> bool, s: string): string {
    if s != "" && space(s[0]) then StripLeft(space, s[1..]) else s
  }

  function StripRight(space: char -> bool, s: string): string {
    if s != "" && space(s[|s| - 1]) then StripRight(space, s[..|s| - 1]) else s
  }

  function Strip(space: char -> bool, s: string): string {
    StripRight(space, StripLeft(space, s))
  }

  /** `^[a-z0-9_-]+$` with re.match, whose `$` also matches before a final newline, and at most 128 characters. */
  predicate ValidName(name: string) {
    var body := if name != "" && name[|name| - 1] == '\n' then name[..|name| - 1] else name;
    Tasks.ValidName(body) && |name| <= 128
  }

  /** A task is a dict with one entry from a valid name to a string. */
  function ParseTask(p: Python, y: Yaml): Option<Task> {
    if y.Dict? && |y.entries| == 1 then
      var key := OnlyKey(y.entries);
      if key.Name? && y.entries[key].Str? && ValidName(key.name)
      then Some(Task(key.name, Strip(p.space, y.entries[key].text)))
      else None
    else None
  }

  function OnlyKey(entries: map<Key, Yaml>): (key: Key)
    requires |entries| == 1
    ensures key in entries
  {
    OneKey(entries);
    var key :| key in entries;
    key
  }

  lemma OneKey(entries: map<Key, Yaml>)
    requires |entries| == 1
    ensures exists key :: key in entries
    ensures forall a, b | a in entries && b in entries :: a == b
  {
    assert |entries.Keys| == 1;
    var key :| key in entries.Keys;
    var rest := entries.Keys - {key};
    assert |rest| == 0;
    assert rest == {};
    assert forall a | a in entries :: a in rest || a == key;
  }

  function ParseTasks(p: Python, items: seq<Yaml>): Option<seq<Task>> {
    if items == [] then Some([])
    else
      var first, rest := ParseTask(p, items[0]), ParseTasks(p, items[1..]);
      if first.Some? && rest.Some? then Some([first.value] + rest.value) else None
  }

  predicate DistinctNames(tasks: seq<Task>) {
    forall i, j | 0 <= i < j < |tasks| :: tasks[i].name != tasks[j].name
  }

  /** No tasks are an error only when the key is null or an empty list; other values that are no list pass. */
  function TasksOf(p: Python, tasks: Yaml, shell: Yaml): Option<seq<Task>> {
    if !Truthy(tasks) || !tasks.Lst? then
      if (tasks.Null? || tasks == Lst([])) && !Truthy(shell) then None else Some([])
    else
      var parsed := ParseTasks(p, tasks.items);
      if parsed.Some? && DistinctNames(parsed.value) then parsed else None
  }

  function TaskDict(t: Task): Yaml {
    Dict(map[Name(t.name) := Str(t.script)])
  }

  function TaskDicts(tasks: seq<Task>): seq<Yaml> {
    seq(|tasks|, i requires 0 <= i < |tasks| => TaskDict(tasks[i]))
  }

  // ---------------------------------------------------------------------------
  // Triggers
  // ---------------------------------------------------------------------------

  datatype Action = Email | Webhook

  datatype Condition = Success | Failure | Always

  datatype Trigger = Trigger(action: Action, condition: Condition, attrs: map<Key, Yaml>)

  function ActionText(a: Action): string {
    match a
    case Email => "email"
    case Webhook => "webhook"
  }

  function ConditionText(c: Condition): string {
    match c
    case Success => "success"
    case Failure => "failure"
    case Always => "always"
  }

  function ParseAction(y: Yaml): Option<Action> {
    if y == Str("email") then Some(Email) else if y == Str("webhook") then Some(Webhook) else None
  }

  function ParseCondition(y: Yaml): Option<Condition> {
    if y == Str("success") then Some(Success)
    else if y == Str("failure") then Some(Failure)
    else if y == Str("always") then Some(Always)
    else None
  }

  const ActionKey := Name("action")
  const ConditionKey := Name("condition")

  function ParseTrigger(y: Yaml): Option<Trigger> {
    if y.Dict? && ActionKey in y.entries && ConditionKey in y.entries then
      var action, condition := ParseAction(y.entries[ActionKey]), ParseCondition(y.entries[ConditionKey]);
      if action.Some? && condition.Some?
      then Some(Trigger(action.value, condition.value, y.entries - {ActionKey, ConditionKey}))
      else None
    else None
  }

  function TriggerDict(t: Trigger): map<Key, Yaml> {
    t.attrs[ActionKey := Str(ActionText(t.action))][ConditionKey := Str(ConditionText(t.condition))]
  }

  function ParseTriggers(items: seq<Yaml>): Option<seq<Trigger>> {
    if items == [] then Some([])
    else
      var first, rest := ParseTrigger(items[0]), ParseTriggers(items[1..]);
      if first.Some? && rest.Some? then Some([first.value] + rest.value) else None
  }

  /** Iterating over anything true but a list of dicts raises. */
  function TriggersOf(y: Yaml): Option<seq<Trigger>> {
    if !Truthy(y) then Some([]) else if y.Lst? then ParseTriggers(y.items) else None
  }

  function TriggerDicts(triggers: seq<Trigger>): seq<Yaml> {
    seq(|triggers|, i requires 0 <= i < |triggers| => Dict(TriggerDict(triggers[i])))
  }

  /** A trigger of a manifest in memory. */
  class TriggerObject {
    const action: Action
    const condition: Condition
    var attrs: map<Key, Yaml>

    constructor (t: Trigger)
      ensures View() == t
    {
      action, condition, attrs := t.action, t.condition, t.attrs;
    }

    function View(): Trigger
      reads this
    {
      Trigger(action, condition, attrs)
    }

    /** Puts action and condition into the trigger's own attributes and returns them. */
    method ToDict() returns (dict: map<Key, Yaml>)
      modifies this
      ensures dict == TriggerDict(old(View())) && attrs == dict
      ensures TriggerDict(View()) == dict
    {
      attrs := attrs[ActionKey := Str(ActionText(action))][ConditionKey := Str(ConditionText(condition))];
      dict := attrs;
      DictTwice(Trigger(action, condition, old(attrs)));
    }
  }

  /** Calling to_dict again gives the same dict, although the first call changed the trigger. */
  lemma DictTwice(t: Trigger)
    ensures TriggerDict(t.(attrs := TriggerDict(t))) == TriggerDict(t)
  {
  }

  /** The triggers' dicts; an object may be listed more than once. */
  method DictsOf(triggers: seq<TriggerObject>) returns (dicts: seq<Yaml>)
    modifies set i | 0 <= i < |triggers| :: triggers[i]
    ensures |dicts| == |triggers|
    ensures forall i | 0 <= i < |triggers| :: dicts[i] == Dict(TriggerDict(old(triggers[i].View())))
    ensures forall i | 0 <= i < |triggers| :: TriggerDict(triggers[i].View()) == TriggerDict(old(triggers[i].View()))
  {
    dicts := [];
    for n := 0 to |triggers|
      invariant |dicts| == n
      invariant forall i | 0 <= i < n :: dicts[i] == Dict(TriggerDict(old(triggers[i].View())))
      invariant forall i | 0 <= i < |triggers| ::
        TriggerDict(triggers[i].View()) == TriggerDict(old(triggers[i].View()))
    {
      var dict := triggers[n].ToDict();
      dicts := dicts + [Dict(dict)];
    }
  }

  // ---------------------------------------------------------------------------
  // The manifest
  // ---------------------------------------------------------------------------

  predicate StringList(y: Yaml) {
    y.Lst? && forall i | 0 <= i < |y.items| :: y.items[i].Str?
  }

  predicate RepositoriesOk(y: Yaml) {
    Truthy(y) ==> y.Dict? && forall k | k in y.entries :: y.entries[k].Str?
  }

  predicate SecretOk(p: Python, s: string) {
    p.uuid(s).Some? || 3 <= |s| <= 512
  }

  predicate SecretsOk(p: Python, y: Yaml) {
    Truthy(y) ==> StringList(y) && forall i | 0 <= i < |y.items| :: SecretOk(p, y.items[i].text)
  }

  /** Paths with different base names. */
  predicate ArtifactsOk(y: Yaml) {
    y.Null? ||
    (StringList(y)
     && (forall i | 0 <= i < |y.items| :: y.items[i].text != "")
     && forall i, j | 0 <= i < j < |y.items| :: AfterSlash(y.items[i].text) != AfterSlash(y.items[j].text))
  }

  /** Everything but tasks and triggers. */
  predicate FieldsOk(p: Python, f: Fields) {
    && f.image.Str? && f.image.text != ""
    && (Truthy(f.packages) ==> StringList(f.packages))
    && RepositoriesOk(f.repositories)
    && (Truthy(f.sources) ==> StringList(f.sources))
    && (Truthy(f.environment) ==> f.environment.Dict?)
    && SecretsOk(p, f.secrets)
    && (f.shell.Null? || f.shell.Bool?)
    && ArtifactsOk(f.artifacts)
    && (f.oauth.Null? || f.oauth.Str?)
  }

  function CanonicalSecret(p: Python, s: string): string {
    p.uuid(s).GetOr(s)
  }

  function CanonicalSecrets(p: Python, y: Yaml): Yaml
    requires SecretsOk(p, y)
  {
    if Truthy(y)
    then Lst(seq(|y.items|, i requires 0 <= i < |y.items| => Str(CanonicalSecret(p, y.items[i].text))))
    else y
  }

  /** `plain` are the fields kept as they were given. */
  datatype Manifest = Manifest(plain: Fields, secrets: Yaml, tasks: seq<Task>, triggers: seq<Trigger>)

  /** Manifest(yml); None when it raises. */
  function Parse(p: Python, f: Fields): Option<Manifest> {
    if !FieldsOk(p, f) then None
    else
      var tasks, triggers := TasksOf(p, f.tasks, f.shell), TriggersOf(f.triggers);
      if tasks.Some? && triggers.Some?
      then Some(Manifest(f, CanonicalSecrets(p, f.secrets), tasks.value, triggers.value))
      else None
  }

  function ToDict(m: Manifest): Fields {
    m.plain.(
      secrets := if Truthy(m.secrets) then m.secrets else Null,
      tasks := Lst(TaskDicts(m.tasks)),
      triggers := if m.triggers != [] then Lst(TriggerDicts(m.triggers)) else Null)
  }

  // ---------------------------------------------------------------------------
  // Parsing what to_dict gives
  // ---------------------------------------------------------------------------

  lemma {:induction false} StripLeftFacts(space: char -> bool, s: string)
    ensures StripLeft(space, s) == "" || !space(StripLeft(space, s)[0])
  {
    if s != "" && space(s[0]) {
      StripLeftFacts(space, s[1..]);
    }
  }

  lemma {:induction false} StripRightFacts(space: char -> bool, s: string)
    ensures var r := StripRight(space, s); r <= s && (r == "" || !space(r[|r| - 1]))
  {
    if s != "" && space(s[|s| - 1]) {
      StripRightFacts(space, s[..|s| - 1]);
    }
  }

  lemma StripTwice(space: char -> bool, s: string)
    ensures Strip(space, Strip(space, s)) == Strip(space, s)
  {
    StripLeftFacts(space, s);
    StripRightFacts(space, StripLeft(space, s));
    var r := Strip(space, s);
    if r != "" {
      assert r[0] == StripLeft(space, s)[0];
    }
  }

  predicate TaskOk(p: Python, t: Task) {
    ValidName(t.name) && Strip(p.space, t.script) == t.script
  }

  lemma ParsedTask(p: Python, y: Yaml)
    requires ParseTask(p, y).Some?
    ensures TaskOk(p, ParseTask(p, y).value)
  {
    StripTwice(p.space, y.entries[OnlyKey(y.entries)].text);
  }

  lemma TaskRoundTrip(p: Python, t: Task)
    requires TaskOk(p, t)
    ensures ParseTask(p, TaskDict(t)) == Some(t)
  {
  }

  lemma {:induction false} ParsedTasks(p: Python, items: seq<Yaml>)
    requires ParseTasks(p, items).Some?
    ensures |ParseTasks(p, items).value| == |items|
    ensures forall i | 0 <= i < |ParseTasks(p, items).value| :: TaskOk(p, ParseTasks(p, items).value[i])
  {
    if items != [] {
      ParsedTask(p, items[0]);
      ParsedTasks(p, items[1..]);
    }
  }

  lemma {:induction false} TasksRoundTrip(p: Python, tasks: seq<Task>)
    requires forall i | 0 <= i < |tasks| :: TaskOk(p, tasks[i])
    ensures ParseTasks(p, TaskDicts(tasks)) == Some(tasks)
  {
    if tasks != [] {
      TaskRoundTrip(p, tasks[0]);
      assert TaskDicts(tasks)[1..] == TaskDicts(tasks[1..]);
      TasksRoundTrip(p, tasks[1..]);
      assert [tasks[0]] + tasks[1..] == tasks;
    }
  }

  predicate TriggerOk(t: Trigger) {
    ActionKey !in t.attrs && ConditionKey !in t.attrs
  }

  lemma TriggerRoundTrip(t: Trigger)
    requires TriggerOk(t)
    ensures ParseTrigger(Dict(TriggerDict(t))) == Some(t)
  {
    assert ActionKey.name[0] != ConditionKey.name[0];
    var d := TriggerDict(t);
    TextsRoundTrip(t);
    assert d[ActionKey] == Str(ActionText(t.action)) && d[ConditionKey] == Str(ConditionText(t.condition));
    assert d - {ActionKey, ConditionKey} == t.attrs;
  }

  lemma TextsRoundTrip(t: Trigger)
    ensures ParseAction(Str(ActionText(t.action))) == Some(t.action)
    ensures ParseCondition(Str(ConditionText(t.condition))) == Some(t.condition)
  {
  }

  lemma {:induction false} ParsedTriggers(items: seq<Yaml>)
    requires ParseTriggers(items).Some?
    ensures |ParseTriggers(items).value| == |items|
    ensures forall i | 0 <= i < |ParseTriggers(items).value| :: TriggerOk(ParseTriggers(items).value[i])
  {
    if items != [] {
      ParsedTriggers(items[1..]);
    }
  }

  lemma {:induction false} TriggersRoundTrip(triggers: seq<Trigger>)
    requires forall i | 0 <= i < |triggers| :: TriggerOk(triggers[i])
    ensures ParseTriggers(TriggerDicts(triggers)) == Some(triggers)
  {
    if triggers != [] {
      TriggerRoundTrip(triggers[0]);
      assert TriggerDicts(triggers)[1..] == TriggerDicts(triggers[1..]);
      TriggersRoundTrip(triggers[1..]);
      assert [triggers[0]] + triggers[1..] == triggers;
    }
  }

  lemma SecretsRoundTrip(p: Python, y: Yaml)
    requires p.Canonical() && SecretsOk(p, y) && Truthy(y)
    ensures Truthy(CanonicalSecrets(p, y)) && SecretsOk(p, CanonicalSecrets(p, y))
    ensures CanonicalSecrets(p, CanonicalSecrets(p, y)) == CanonicalSecrets(p, y)
  {
  }

  /** The manifest has something to do: a nonempty list of tasks, or a shell. */
  predicate HasWork(f: Fields) {
    (f.tasks.Lst? && f.tasks.items != []) || f.shell == Bool(true)
  }

  lemma TasksOfRoundTrip(p: Python, tasks: Yaml, shell: Yaml)
    requires TasksOf(p, tasks, shell).Some? && (shell.Null? || shell.Bool?)
    ensures var parsed := TasksOf(p, tasks, shell).value;
      && (TasksOf(p, Lst(TaskDicts(parsed)), shell).Some? <==>
            (tasks.Lst? && tasks.items != []) || shell == Bool(true))
      && (TasksOf(p, Lst(TaskDicts(parsed)), shell).Some? ==> TasksOf(p, Lst(TaskDicts(parsed)), shell).value == parsed)
  {
    var parsed := TasksOf(p, tasks, shell).value;
    if Truthy(tasks) && tasks.Lst? {
      ParsedTasks(p, tasks.items);
      TasksRoundTrip(p, parsed);
    } else {
      assert TaskDicts(parsed) == [];
    }
  }

  lemma TriggersOfRoundTrip(y: Yaml)
    requires TriggersOf(y).Some?
    ensures var parsed := TriggersOf(y).value;
      TriggersOf(if parsed != [] then Lst(TriggerDicts(parsed)) else Null) == Some(parsed)
  {
    if Truthy(y) {
      ParsedTriggers(y.items);
      TriggersRoundTrip(TriggersOf(y).value);
    }
  }

  lemma FieldsOkOfDict(p: Python, f: Fields)
    requires p.Canonical() && Parse(p, f).Some?
    ensures FieldsOk(p, ToDict(Parse(p, f).value))
    ensures CanonicalSecrets(p, ToDict(Parse(p, f).value).secrets) == ToDict(Parse(p, f).value).secrets
  {
  }

  /**
    Normalisation is a fixed point: the dict of an accepted manifest is accepted, with the same dict
    again, exactly when the manifest has something to do.  The exception is a `tasks` value that is
    neither null nor a list, which is taken for no tasks without a shell being asked for.
  */
  lemma NormalisationIsFixedPoint(p: Python, f: Fields)
    requires p.Canonical() && Parse(p, f).Some?
    ensures var d := ToDict(Parse(p, f).value);
      && (Parse(p, d).Some? <==> HasWork(f))
      && (Parse(p, d).Some? ==> ToDict(Parse(p, d).value) == d)
  {
    FieldsOkOfDict(p, f);
    TasksOfRoundTrip(p, f.tasks, f.shell);
    TriggersOfRoundTrip(f.triggers);
  }

  /** In particular for a `tasks` that is null or a list. */
  lemma ListOrNullHasWork(p: Python, f: Fields)
    requires Parse(p, f).Some? && (f.tasks.Null? || f.tasks.Lst?)
    ensures HasWork(f)
  {
  }

  /** `tasks: {}` without a shell is accepted, but the dict made from it is not. */
  lemma EmptyDictIsNoFixedPoint(p: Python)
    ensures var f := Fields(Str("alpine"), Null, Null, Null, Null, Null, Null, Dict(map[]), Null, Null, Null, Null);
      Parse(p, f).Some? && Parse(p, ToDict(Parse(p, f).value)).None?
  {
  }

  // ---------------------------------------------------------------------------
  // What to_dict keeps
  // ---------------------------------------------------------------------------

  /** `r` is `s` without the space around it. */
  ghost predicate IsStripped(space: char -> bool, s: string, r: string) {
    && (r == "" || (!space(r[0]) && !space(r[|r| - 1])))
    && exists before, after :: s == before + r + after && AllSpace(space, before) && AllSpace(space, after)
  }

  predicate AllSpace(space: char -> bool, s: string) {
    forall i | 0 <= i < |s| :: space(s[i])
  }

  lemma {:induction false} StripLeftCuts(space: char -> bool, s: string) returns (before: string)
    ensures s == before + StripLeft(space, s) && AllSpace(space, before)
    decreases |s|
  {
    before := "";
    if s != "" && space(s[0]) {
      var more := StripLeftCuts(space, s[1..]);
      before := [s[0]] + more;
      assert s == [s[0]] + s[1..];
    }
  }

  lemma {:induction false} StripRightCuts(space: char -> bool, s: string) returns (after: string)
    ensures s == StripRight(space, s) + after && AllSpace(space, after)
    decreases |s|
  {
    after := "";
    if s != "" && space(s[|s| - 1]) {
      var more := StripRightCuts(space, s[..|s| - 1]);
      after := more + [s[|s| - 1]];
      assert s == s[..|s| - 1] + [s[|s| - 1]];
    }
  }

  /** str.strip takes the space on both sides and nothing else. */
  lemma StripCutsSpace(space: char -> bool, s: string)
    ensures IsStripped(space, s, Strip(space, s))
  {
    var left := StripLeft(space, s);
    var before := StripLeftCuts(space, s);
    var after := StripRightCuts(space, left);
    StripLeftFacts(space, s);
    StripRightFacts(space, left);
    var r := Strip(space, s);
    assert s == before + r + after;
    if r != "" {
      assert r[0] == left[0];
    }
  }

  /** The dict of a task has its one name, and its script without the space around it. */
  ghost predicate KeepsTask(p: Python, given: Yaml, dict: Yaml) {
    exists key, text, script ::
      given == Dict(map[key := Str(text)]) && dict == Dict(map[key := Str(script)]) && IsStripped(p.space, text, script)
  }

  lemma TaskIsKept(p: Python, y: Yaml)
    requires ParseTask(p, y).Some?
    ensures KeepsTask(p, y, TaskDict(ParseTask(p, y).value))
  {
    var key := OnlyKey(y.entries);
    var t := ParseTask(p, y).value;
    OneKey(y.entries);
    StripCutsSpace(p.space, y.entries[key].text);
    assert y.entries == map[key := Str(y.entries[key].text)];
    assert y == Dict(map[key := Str(y.entries[key].text)]) && TaskDict(t) == Dict(map[key := Str(t.script)]);
  }

  lemma {:induction false} TasksAreKept(p: Python, items: seq<Yaml>)
    requires ParseTasks(p, items).Some?
    ensures |ParseTasks(p, items).value| == |items|
    ensures forall i | 0 <= i < |items| :: KeepsTask(p, items[i], TaskDict(ParseTasks(p, items).value[i]))
  {
    if items != [] {
      TaskIsKept(p, items[0]);
      TasksAreKept(p, items[1..]);
      var tasks := ParseTasks(p, items).value;
      forall i | 0 < i < |items| ensures KeepsTask(p, items[i], TaskDict(tasks[i])) {
        assert items[i] == items[1..][i - 1] && tasks[i] == ParseTasks(p, items[1..]).value[i - 1];
      }
    }
  }

  lemma TriggerIsKept(y: Yaml)
    requires ParseTrigger(y).Some?
    ensures Dict(TriggerDict(ParseTrigger(y).value)) == y
  {
    var t := ParseTrigger(y).value;
    assert ActionKey.name[0] != ConditionKey.name[0];
    assert TriggerDict(t) == y.entries;
  }

  lemma {:induction false} TriggersAreKept(items: seq<Yaml>)
    requires ParseTriggers(items).Some?
    ensures TriggerDicts(ParseTriggers(items).value) == items
  {
    if items != [] {
      TriggerIsKept(items[0]);
      TriggersAreKept(items[1..]);
      var triggers := ParseTriggers(items).value;
      assert TriggerDicts(triggers) == [Dict(TriggerDict(triggers[0]))] + TriggerDicts(triggers[1..]);
    }
  }

  /** Ids are spelled canonically, other names are kept. */
  predicate KeepsSecret(p: Python, given: Yaml, dict: Yaml) {
    given.Str? && dict == if p.uuid(given.text).Some? then Str(p.uuid(given.text).value) else given
  }

  /** In order; what counts as no secrets becomes null. */
  predicate KeepsSecrets(p: Python, given: Yaml, dict: Yaml) {
    if Truthy(given)
    then given.Lst? && dict.Lst? && |dict.items| == |given.items|
         && forall i | 0 <= i < |given.items| :: KeepsSecret(p, given.items[i], dict.items[i])
    else dict == Null
  }

  /** In order; what is no list becomes an empty one. */
  ghost predicate KeepsTasks(p: Python, given: Yaml, dict: Yaml) {
    && dict.Lst?
    && (if given.Lst?
        then |dict.items| == |given.items|
             && forall i | 0 <= i < |given.items| :: KeepsTask(p, given.items[i], dict.items[i])
        else dict.items == [])
  }

  lemma TaskListIsKept(p: Python, tasks: Yaml, shell: Yaml)
    requires TasksOf(p, tasks, shell).Some?
    ensures KeepsTasks(p, tasks, Lst(TaskDicts(TasksOf(p, tasks, shell).value)))
  {
    if Truthy(tasks) && tasks.Lst? {
      TasksAreKept(p, tasks.items);
    }
  }

  lemma TriggerListIsKept(y: Yaml)
    requires TriggersOf(y).Some?
    ensures var parsed := TriggersOf(y).value;
      (if parsed != [] then Lst(TriggerDicts(parsed)) else Null) == if Truthy(y) then y else Null
  {
    if Truthy(y) {
      TriggersAreKept(y.items);
      assert |TriggersOf(y).value| == |y.items|;
    }
  }

  /**
    to_dict keeps everything that was given: nine fields as they were; secrets in order, with ids spelled
    canonically; tasks in order, their scripts without the space around them; and triggers in order, entry
    by entry.  What counts as no triggers becomes null.
  */
  lemma ToDictKeepsWhatWasGiven(p: Python, f: Fields)
    requires Parse(p, f).Some?
    ensures var d := ToDict(Parse(p, f).value);
      && d.image == f.image && d.arch == f.arch && d.packages == f.packages && d.repositories == f.repositories
      && d.sources == f.sources && d.environment == f.environment && d.shell == f.shell
      && d.artifacts == f.artifacts && d.oauth == f.oauth
      && KeepsSecrets(p, f.secrets, d.secrets) && KeepsTasks(p, f.tasks, d.tasks)
      && d.triggers == if Truthy(f.triggers) then f.triggers else Null
  {
    TaskListIsKept(p, f.tasks, f.shell);
    TriggerListIsKept(f.triggers);
  }

  // ---------------------------------------------------------------------------
  // What is refused
  // ---------------------------------------------------------------------------

  /** Python's false values. */
  lemma FalseValues(y: Yaml)
    ensures !Truthy(y) <==>
      y in {Null, Bool(false), Num(0), Str(""), Lst([]), Dict(map[])} || (y.Other? && !y.truthy)
  {
  }

  /** The pattern lets one newline at the end through, and counts it. */
  lemma ValidNamesAre(name: string)
    ensures ValidName(name) <==>
      && |name| <= 128
      && (Tasks.NameText(name) || (name != "" && name[|name| - 1] as int == 10 && Tasks.NameText(name[..|name| - 1])))
  {
    Tasks.NameTextIs(name);
    if name != "" && name[|name| - 1] == '\n' {
      var body := name[..|name| - 1];
      Tasks.NameTextIs(body);
      assert !Tasks.NameChar(name[|name| - 1]);
      assert ValidName(name) <==> Tasks.NameText(body) && |name| <= 128;
    } else {
      assert ValidName(name) <==> Tasks.NameText(name) && |name| <= 128;
    }
  }

  predicate NoStringList(y: Yaml) {
    !y.Lst? || exists i :: 0 <= i < |y.items| && !y.items[i].Str?
  }

  predicate BadSecrets(p: Python, y: Yaml) {
    NoStringList(y)
    || exists i :: 0 <= i < |y.items| && p.uuid(y.items[i].text).None?
                   && (|y.items[i].text| < 3 || |y.items[i].text| > 512)
  }

  predicate BadArtifacts(y: Yaml) {
    NoStringList(y)
    || (exists i :: 0 <= i < |y.items| && y.items[i] == Str(""))
    || exists i, j :: 0 <= i < j < |y.items| && AfterSlash(y.items[i].text) == AfterSlash(y.items[j].text)
  }

  predicate BadTask(y: Yaml) {
    !y.Dict? || |y.entries| != 1
    || exists key :: key in y.entries && !(key.Name? && y.entries[key].Str? && ValidName(key.name))
  }

  predicate BadTasks(y: Yaml, shell: Yaml) {
    || ((y == Null || y == Lst([])) && shell != Bool(true))
    || (y.Lst? && exists i :: 0 <= i < |y.items| && BadTask(y.items[i]))
    || (y.Lst? && exists i, j :: 0 <= i < j < |y.items| && y.items[i].Dict? && y.items[j].Dict?
                                 && exists key :: key in y.items[i].entries && key in y.items[j].entries)
  }

  predicate BadTrigger(y: Yaml) {
    || !y.Dict? || Name("action") !in y.entries || Name("condition") !in y.entries
    || y.entries[Name("action")] !in {Str("email"), Str("webhook")}
    || y.entries[Name("condition")] !in {Str("success"), Str("failure"), Str("always")}
  }

  predicate BadTriggers(y: Yaml) {
    !y.Lst? || exists i :: 0 <= i < |y.items| && BadTrigger(y.items[i])
  }

  /** One of the checks of the image, the lists and the flags fails. */
  predicate BadField(p: Python, f: Fields) {
    || !f.image.Str? || f.image == Str("")
    || (Truthy(f.packages) && NoStringList(f.packages))
    || (Truthy(f.repositories) && (!f.repositories.Dict? ||
          exists k :: k in f.repositories.entries && !f.repositories.entries[k].Str?))
    || (Truthy(f.sources) && NoStringList(f.sources))
    || (Truthy(f.environment) && !f.environment.Dict?)
    || (Truthy(f.secrets) && BadSecrets(p, f.secrets))
    || f.shell !in {Null, Bool(true), Bool(false)}
    || (f.artifacts != Null && BadArtifacts(f.artifacts))
    || !(f.oauth.Null? || f.oauth.Str?)
  }

  lemma FieldsAreChecked(p: Python, f: Fields)
    ensures FieldsOk(p, f) <==> !BadField(p, f)
  {
  }

  lemma BadTaskIsRefused(p: Python, y: Yaml)
    ensures ParseTask(p, y).None? <==> BadTask(y)
    ensures !BadTask(y) ==> y.entries.Keys == {Name(ParseTask(p, y).value.name)}
  {
    if y.Dict? && |y.entries| == 1 {
      OneKey(y.entries);
      assert y.entries.Keys == {OnlyKey(y.entries)};
    }
  }

  lemma {:induction false} SomeBadTaskIsRefused(p: Python, items: seq<Yaml>)
    ensures ParseTasks(p, items).None? <==> exists i :: 0 <= i < |items| && BadTask(items[i])
    ensures ParseTasks(p, items).Some? ==>
      && |ParseTasks(p, items).value| == |items|
      && forall i | 0 <= i < |items| ::
           items[i].Dict? && items[i].entries.Keys == {Name(ParseTasks(p, items).value[i].name)}
  {
    if items != [] {
      BadTaskIsRefused(p, items[0]);
      SomeBadTaskIsRefused(p, items[1..]);
      assert forall i | 0 < i < |items| :: items[i] == items[1..][i - 1];
      if i :| 0 <= i < |items| && BadTask(items[i]) {
        assert i > 0 ==> BadTask(items[1..][i - 1]);
      }
    }
  }

  lemma TasksAreChecked(p: Python, tasks: Yaml, shell: Yaml)
    requires shell in {Null, Bool(true), Bool(false)}
    ensures TasksOf(p, tasks, shell).None? <==> BadTasks(tasks, shell)
  {
    if Truthy(tasks) && tasks.Lst? {
      SomeBadTaskIsRefused(p, tasks.items);
      if ParseTasks(p, tasks.items).Some? {
        SameNameIsSameKey(tasks.items, ParseTasks(p, tasks.items).value);
      }
    }
  }

  lemma SameNameIsSameKey(items: seq<Yaml>, tasks: seq<Task>)
    requires |tasks| == |items|
    requires forall i | 0 <= i < |items| :: items[i].Dict? && items[i].entries.Keys == {Name(tasks[i].name)}
    ensures DistinctNames(tasks) <==>
      !exists i, j :: 0 <= i < j < |items| && exists key :: key in items[i].entries && key in items[j].entries
  {
    forall i, j | 0 <= i < j < |items|
      ensures tasks[i].name == tasks[j].name <==> exists key :: key in items[i].entries && key in items[j].entries
    {
      assert forall key :: key in items[i].entries <==> key in items[i].entries.Keys;
      assert Name(tasks[i].name) in items[i].entries;
    }
  }

  lemma BadTriggerIsRefused(y: Yaml)
    ensures ParseTrigger(y).None? <==> BadTrigger(y)
  {
  }

  lemma {:induction false} SomeBadTriggerIsRefused(items: seq<Yaml>)
    ensures ParseTriggers(items).None? <==> exists i :: 0 <= i < |items| && BadTrigger(items[i])
  {
    if items != [] {
      BadTriggerIsRefused(items[0]);
      SomeBadTriggerIsRefused(items[1..]);
      if i :| 0 <= i < |items| && BadTrigger(items[i]) {
        assert i > 0 ==> BadTrigger(items[1..][i - 1]);
      }
      if i :| 0 <= i < |items[1..]| && BadTrigger(items[1..][i]) {
        assert BadTrigger(items[i + 1]);
      }
    }
  }

  /** A manifest is refused exactly for one of these reasons. */
  lemma WhatIsRefused(p: Python, f: Fields)
    ensures Parse(p, f).None? <==>
      || BadField(p, f)
      || BadTasks(f.tasks, f.shell)
      || (Truthy(f.triggers) && BadTriggers(f.triggers))
  {
    FieldsAreChecked(p, f);
    if FieldsOk(p, f) {
      TasksAreChecked(p, f.tasks, f.shell);
      if f.triggers.Lst? {
        SomeBadTriggerIsRefused(f.triggers.items);
      }
    }
  }
}
