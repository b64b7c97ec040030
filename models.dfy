/**
 * The request and response models of the Jira wrapper: the priority and
 * issue-type enumerations, the issue-creation request with its constraints,
 * defaults and serialisation to the Jira library's `fields` body, the
 * configuration's missing-variable rule, and the projection of a fetched
 * issue onto the response model.
 */
module Models {
  import opened Wrappers
  import opened Text
  import opened JsonDict

  // ---------------------------------------------------------------------------
  // Enumerations.

  /** Jira priority levels. */
  datatype Priority = Lowest | Low | Medium | High | Highest | Critical
  {
    /** The member's value, the name Jira knows it by. */
    function Value(): string
    {
      match this
      case Lowest => "Lowest"
      case Low => "Low"
      case Medium => "Medium"
      case High => "High"
      case Highest => "Highest"
      case Critical => "Critical"
    }
  }

  /** `Priority(s)`: the member whose value is `s`, if any. */
  function PriorityOf(s: string): (r: Option<Priority>)
    ensures r.Some? ==> r.value.Value() == s
  {
    if s == "Lowest" then Some(Lowest)
    else if s == "Low" then Some(Low)
    else if s == "Medium" then Some(Medium)
    else if s == "High" then Some(High)
    else if s == "Highest" then Some(Highest)
    else if s == "Critical" then Some(Critical)
    else None
  }

  /** Every priority is found again from its value, so no two priorities share a value. */
  lemma PriorityRoundTrip(p: Priority)
    ensures PriorityOf(p.Value()) == Some(p)
  {
  }

  /** Common Jira issue types. */
  datatype IssueType = Task | Bug | Story | Epic | Subtask
  {
    /** The member's value, the name Jira knows it by. */
    function Value(): string
    {
      match this
      case Task => "Task"
      case Bug => "Bug"
      case Story => "Story"
      case Epic => "Epic"
      case Subtask => "Sub-task"
    }
  }

  /** `IssueType(s)`: the member whose value is `s`, if any. */
  function IssueTypeOf(s: string): (r: Option<IssueType>)
    ensures r.Some? ==> r.value.Value() == s
  {
    if s == "Task" then Some(Task)
    else if s == "Bug" then Some(Bug)
    else if s == "Story" then Some(Story)
    else if s == "Epic" then Some(Epic)
    else if s == "Sub-task" then Some(Subtask)
    else None
  }

  /** Every issue type is found again from its value, so no two issue types share a value. */
  lemma IssueTypeRoundTrip(t: IssueType)
    ensures IssueTypeOf(t.Value()) == Some(t)
  {
  }

  // ---------------------------------------------------------------------------
  // The issue-creation request.

  /** The `issue_type` field: a member of the enumeration or any string. */
  datatype IssueTypeField = Known(t: IssueType) | Named(name: string)

  /** `IssueCreate`. */
  datatype IssueCreate = IssueCreate(
    projectKey: string,
    summary: string,
    description: string,
    issueType: IssueTypeField,
    priority: Option<Priority>,
    labels: Option<seq<string>>,
    assignee: Option<string>,
    components: Option<seq<string>>,
    customFields: Option<Dict>,
    parentKey: Option<string>)

  /** The fields the model constrains, by name. */
  const ProjectKeyField := "project_key"
  const SummaryField := "summary"

  /** The fields that break their `min_length=1` constraint, in declaration order. */
  function TooShort(projectKey: string, summary: string): seq<string>
  {
    (if projectKey == "" then [ProjectKeyField] else []) + (if summary == "" then [SummaryField] else [])
  }

  /**
   * Validating construction of a request: fails, naming the offending fields,
   * when the project key or the summary is empty.
   */
  function NewIssueCreate(
    projectKey: string, summary: string, description: string, issueType: IssueTypeField,
    priority: Option<Priority>, labels: Option<seq<string>>, assignee: Option<string>,
    components: Option<seq<string>>, customFields: Option<Dict>, parentKey: Option<string>)
    : (r: Result<IssueCreate, seq<string>>)
    ensures r.Success? <==> projectKey != [] && summary != []
    ensures r.Success? ==> r.value == IssueCreate(projectKey, summary, description, issueType,
      priority, labels, assignee, components, customFields, parentKey)
    ensures r.Failure? ==>
      && r.error != []
      && (ProjectKeyField in r.error <==> projectKey == [])
      && (SummaryField in r.error <==> summary == [])
  {
    var short := TooShort(projectKey, summary);
    if short != [] then Failure(short)
    else Success(IssueCreate(projectKey, summary, description, issueType,
      priority, labels, assignee, components, customFields, parentKey))
  }

  /** A request given only its project key and summary: every other field takes its default. */
  function NewIssue(projectKey: string, summary: string): Result<IssueCreate, seq<string>>
  {
    NewIssueCreate(projectKey, summary, "", Known(Task), None, None, None, None, None, None)
  }

  /** The defaults: an empty description, the `Task` type, and no priority, labels, assignee, components, custom fields or parent. */
  lemma Defaults(projectKey: string, summary: string)
    requires projectKey != [] && summary != []
    ensures var r := NewIssue(projectKey, summary);
      && r.Success?
      && r.value.projectKey == projectKey && r.value.summary == summary
      && r.value.description == "" && r.value.issueType == Known(Task)
      && r.value.priority == None && r.value.labels == None && r.value.assignee == None
      && r.value.components == None && r.value.customFields == None && r.value.parentKey == None
  {
  }

  // ---------------------------------------------------------------------------
  // `IssueCreate.to_jira_dict`.

  /** The issue type's name: the member's value, or the string as given. */
  function IssueTypeName(t: IssueTypeField): string
  {
    match t
    case Known(m) => m.Value()
    case Named(name) => name
  }

  /** `{'name': n}`. */
  function NameObject(n: string): Json
  {
    JObj([("name", JStr(n))])
  }

  /** `{'key': k}`. */
  function KeyObject(k: string): Json
  {
    JObj([("key", JStr(k))])
  }

  /** The four fields every request carries, in the order the source writes them. */
  function MandatoryFields(issue: IssueCreate): Dict
  {
    [ ("project", KeyObject(issue.projectKey)),
      ("summary", JStr(issue.summary)),
      ("description", JStr(issue.description)),
      ("issuetype", NameObject(IssueTypeName(issue.issueType))) ]
  }

  /** The keys of the mandatory fields, in order. */
  const MandatoryKeys: seq<string> := ["project", "summary", "description", "issuetype"]

  /** `bool(x)` of an optional string, list or dictionary: present and not empty. */
  predicate Truthy<T>(o: Option<seq<T>>)
  {
    o.Some? && o.value != []
  }

  /** A list of strings as JSON. */
  function Strings(ss: seq<string>): (r: seq<Json>)
    ensures |r| == |ss|
  {
    if ss == [] then [] else [JStr(ss[0])] + Strings(ss[1..])
  }

  /** The i-th JSON string is the i-th string. */
  lemma {:induction false} StringsAt(ss: seq<string>, i: nat)
    requires i < |ss|
    ensures Strings(ss)[i] == JStr(ss[i])
  {
    if i > 0 {
      StringsAt(ss[1..], i - 1);
    }
  }

  /** `[{'name': c} for c in components]`. */
  function ComponentObjects(components: seq<string>): (r: seq<Json>)
    ensures |r| == |components|
  {
    if components == [] then [] else [NameObject(components[0])] + ComponentObjects(components[1..])
  }

  /** The i-th component object names the i-th component. */
  lemma {:induction false} ComponentObjectsAt(components: seq<string>, i: nat)
    requires i < |components|
    ensures ComponentObjects(components)[i] == NameObject(components[i])
  {
    if i > 0 {
      ComponentObjectsAt(components[1..], i - 1);
    }
  }

  // The source's guarded assignments, one function each.

  function WithPriority(d: Dict, issue: IssueCreate): Dict
  {
    if issue.priority.Some? then Set(d, "priority", NameObject(issue.priority.value.Value())) else d
  }

  function WithLabels(d: Dict, issue: IssueCreate): Dict
  {
    if Truthy(issue.labels) then Set(d, "labels", JList(Strings(issue.labels.value))) else d
  }

  function WithAssignee(d: Dict, issue: IssueCreate): Dict
  {
    if Truthy(issue.assignee) then Set(d, "assignee", NameObject(issue.assignee.value)) else d
  }

  function WithComponents(d: Dict, issue: IssueCreate): Dict
  {
    if Truthy(issue.components) then Set(d, "components", JList(ComponentObjects(issue.components.value))) else d
  }

  function WithParent(d: Dict, issue: IssueCreate): Dict
  {
    if Truthy(issue.parentKey) then Set(d, "parent", KeyObject(issue.parentKey.value)) else d
  }

  function WithCustom(d: Dict, issue: IssueCreate): Dict
  {
    if Truthy(issue.customFields) then Update(d, issue.customFields.value) else d
  }

  /** The standard fields: the mandatory ones, then each optional one that is set and not empty. */
  function StandardFields(issue: IssueCreate): Dict
  {
    WithParent(WithComponents(WithAssignee(WithLabels(WithPriority(MandatoryFields(issue), issue), issue), issue), issue), issue)
  }

  /** The `fields` body: the standard fields, with the custom fields merged over them. */
  function JiraFields(issue: IssueCreate): Dict
  {
    WithCustom(StandardFields(issue), issue)
  }

  /** `to_jira_dict`: builds the `fields` dictionary step by step, as the source does. */
  method ToJiraDict(issue: IssueCreate) returns (result: Json)
    ensures result == JObj([("fields", JObj(JiraFields(issue)))])
  {
    var fields := MandatoryFields(issue);
    ghost var before := fields;
    if issue.priority.Some? {
      fields := Set(fields, "priority", NameObject(issue.priority.value.Value()));
    }
    assert fields == WithPriority(before, issue);
    before := fields;
    if issue.labels.Some? && issue.labels.value != [] {
      fields := Set(fields, "labels", JList(Strings(issue.labels.value)));
    }
    assert fields == WithLabels(before, issue);
    before := fields;
    if issue.assignee.Some? && issue.assignee.value != [] {
      fields := Set(fields, "assignee", NameObject(issue.assignee.value));
    }
    assert fields == WithAssignee(before, issue);
    before := fields;
    if issue.components.Some? && issue.components.value != [] {
      fields := Set(fields, "components", JList(ComponentObjects(issue.components.value)));
    }
    assert fields == WithComponents(before, issue);
    before := fields;
    if issue.parentKey.Some? && issue.parentKey.value != [] {
      fields := Set(fields, "parent", KeyObject(issue.parentKey.value));
    }
    assert fields == WithParent(before, issue);
    before := fields;
    if issue.customFields.Some? && issue.customFields.value != [] {
      fields := Update(fields, issue.customFields.value);
    }
    assert fields == WithCustom(before, issue);
    result := JObj([("fields", JObj(fields))]);
  }

  // ---------------------------------------------------------------------------
  // What the `fields` body holds.

  /** The custom fields of a request, empty when it has none. */
  function Custom(issue: IssueCreate): Dict
  {
    if issue.customFields.Some? then issue.customFields.value else []
  }

  /** No custom field of the request is named `key`. */
  predicate NotCustom(issue: IssueCreate, key: string)
  {
    Get(Custom(issue), key).None?
  }

  /** A field of the body is the custom field of that name if there is one, and else the standard field. */
  lemma FieldLookup(issue: IssueCreate, key: string)
    requires UniqueKeys(Custom(issue))
    ensures Get(JiraFields(issue), key)
      == if Get(Custom(issue), key).Some? then Get(Custom(issue), key) else Get(StandardFields(issue), key)
  {
    if Truthy(issue.customFields) {
      UpdateGet(StandardFields(issue), issue.customFields.value, key);
    }
  }

  /** The mandatory fields hold their four keys and no other. */
  lemma MandatoryGet(issue: IssueCreate, key: string)
    ensures Get(MandatoryFields(issue), key) ==
      if key == "project" then Some(KeyObject(issue.projectKey))
      else if key == "summary" then Some(JStr(issue.summary))
      else if key == "description" then Some(JStr(issue.description))
      else if key == "issuetype" then Some(NameObject(IssueTypeName(issue.issueType)))
      else None
  {
    var m := MandatoryFields(issue);
    FrontEntry(m, key);
    FrontEntry(m[1..], key);
    FrontEntry(m[2..], key);
    FrontEntry(m[3..], key);
    assert m[1..][1..] == m[2..] && m[2..][1..] == m[3..] && m[3..][1..] == [];
  }

  /** Looking up, and listing the keys of, a dictionary through its first entry. */
  lemma FrontEntry(d: Dict, key: string)
    requires d != []
    ensures Get(d, key) == if d[0].0 == key then Some(d[0].1) else Get(d[1..], key)
    ensures Keys(d) == [d[0].0] + Keys(d[1..])
  {
  }

  /** The standard field of a key, after each optional assignment in turn. */
  lemma StandardLookup(issue: IssueCreate, key: string)
    ensures Get(StandardFields(issue), key) ==
      if key == "parent" && Truthy(issue.parentKey) then Some(KeyObject(issue.parentKey.value))
      else if key == "components" && Truthy(issue.components) then Some(JList(ComponentObjects(issue.components.value)))
      else if key == "assignee" && Truthy(issue.assignee) then Some(NameObject(issue.assignee.value))
      else if key == "labels" && Truthy(issue.labels) then Some(JList(Strings(issue.labels.value)))
      else if key == "priority" && issue.priority.Some? then Some(NameObject(issue.priority.value.Value()))
      else Get(MandatoryFields(issue), key)
  {
    var f0 := MandatoryFields(issue);
    var f1 := WithPriority(f0, issue);
    var f2 := WithLabels(f1, issue);
    var f3 := WithAssignee(f2, issue);
    var f4 := WithComponents(f3, issue);
    if issue.priority.Some? { SetGet(f0, "priority", NameObject(issue.priority.value.Value()), key); }
    if Truthy(issue.labels) { SetGet(f1, "labels", JList(Strings(issue.labels.value)), key); }
    if Truthy(issue.assignee) { SetGet(f2, "assignee", NameObject(issue.assignee.value), key); }
    if Truthy(issue.components) { SetGet(f3, "components", JList(ComponentObjects(issue.components.value)), key); }
    if Truthy(issue.parentKey) { SetGet(f4, "parent", KeyObject(issue.parentKey.value), key); }
  }

  /**
   * Without custom fields of those names, the body always carries the project
   * key, the summary, the description and the issue type's name: the member's
   * value for a member of the enumeration, the string itself otherwise.
   */
  lemma MandatoryPresent(issue: IssueCreate)
    requires UniqueKeys(Custom(issue))
    requires NotCustom(issue, "project") && NotCustom(issue, "summary")
    requires NotCustom(issue, "description") && NotCustom(issue, "issuetype")
    ensures Get(JiraFields(issue), "project") == Some(JObj([("key", JStr(issue.projectKey))]))
    ensures Get(JiraFields(issue), "summary") == Some(JStr(issue.summary))
    ensures Get(JiraFields(issue), "description") == Some(JStr(issue.description))
    ensures Get(JiraFields(issue), "issuetype") == Some(JObj([("name", JStr(
      match issue.issueType
      case Known(m) => m.Value()
      case Named(name) => name))]))
  {
    var keys := MandatoryKeys;
    forall i | 0 <= i < 4
      ensures Get(JiraFields(issue), keys[i]) == Get(MandatoryFields(issue), keys[i])
    {
      FieldLookup(issue, keys[i]);
      StandardLookup(issue, keys[i]);
    }
    MandatoryGet(issue, "project");
    MandatoryGet(issue, "summary");
    MandatoryGet(issue, "description");
    MandatoryGet(issue, "issuetype");
    assert keys[0] == "project" && keys[1] == "summary" && keys[2] == "description" && keys[3] == "issuetype";
  }

  /** Without custom fields of its name, the body has a key `priority` exactly when the request has a priority, holding `{'name': value}`. */
  lemma PriorityPresent(issue: IssueCreate)
    requires UniqueKeys(Custom(issue)) && NotCustom(issue, "priority")
    ensures Get(JiraFields(issue), "priority") ==
      if issue.priority.Some? then Some(JObj([("name", JStr(issue.priority.value.Value()))])) else None
  {
    FieldLookup(issue, "priority");
    StandardLookup(issue, "priority");
    MandatoryGet(issue, "priority");
  }

  /** Without custom fields of its name, the body has a key `labels` exactly when the request has labels, holding them in order. */
  lemma LabelsPresent(issue: IssueCreate)
    requires UniqueKeys(Custom(issue)) && NotCustom(issue, "labels")
    ensures var l := Get(JiraFields(issue), "labels");
      && (l.Some? <==> Truthy(issue.labels))
      && (l.Some? ==>
            && l.value.JList? && |l.value.items| == |issue.labels.value|
            && forall i :: 0 <= i < |l.value.items| ==> l.value.items[i] == JStr(issue.labels.value[i]))
  {
    FieldLookup(issue, "labels");
    StandardLookup(issue, "labels");
    MandatoryGet(issue, "labels");
    if Truthy(issue.labels) {
      forall i | 0 <= i < |issue.labels.value|
        ensures Strings(issue.labels.value)[i] == JStr(issue.labels.value[i])
      {
        StringsAt(issue.labels.value, i);
      }
    }
  }

  /** Without custom fields of its name, the body has a key `assignee` exactly when the assignee is set and not empty, holding `{'name': assignee}`. */
  lemma AssigneePresent(issue: IssueCreate)
    requires UniqueKeys(Custom(issue)) && NotCustom(issue, "assignee")
    ensures Get(JiraFields(issue), "assignee") ==
      if Truthy(issue.assignee) then Some(JObj([("name", JStr(issue.assignee.value))])) else None
  {
    FieldLookup(issue, "assignee");
    StandardLookup(issue, "assignee");
    MandatoryGet(issue, "assignee");
  }

  /**
   * Without custom fields of its name, the body has a key `components` exactly
   * when the request has components, holding one `{'name': c}` per component,
   * in order.
   */
  lemma ComponentsPresent(issue: IssueCreate)
    requires UniqueKeys(Custom(issue)) && NotCustom(issue, "components")
    ensures var c := Get(JiraFields(issue), "components");
      && (c.Some? <==> Truthy(issue.components))
      && (c.Some? ==>
            && c.value.JList? && |c.value.items| == |issue.components.value|
            && forall i :: 0 <= i < |c.value.items| ==> c.value.items[i] == JObj([("name", JStr(issue.components.value[i]))]))
  {
    FieldLookup(issue, "components");
    StandardLookup(issue, "components");
    MandatoryGet(issue, "components");
    if Truthy(issue.components) {
      forall i | 0 <= i < |issue.components.value|
        ensures ComponentObjects(issue.components.value)[i] == JObj([("name", JStr(issue.components.value[i]))])
      {
        ComponentObjectsAt(issue.components.value, i);
      }
    }
  }

  /** Without custom fields of its name, the body has a key `parent` exactly when the parent key is set and not empty, holding `{'key': parent}`. */
  lemma ParentPresent(issue: IssueCreate)
    requires UniqueKeys(Custom(issue)) && NotCustom(issue, "parent")
    ensures Get(JiraFields(issue), "parent") ==
      if Truthy(issue.parentKey) then Some(JObj([("key", JStr(issue.parentKey.value))])) else None
  {
    FieldLookup(issue, "parent");
    StandardLookup(issue, "parent");
    MandatoryGet(issue, "parent");
  }

  /** Every custom field ends up in the body with its own value, overriding a standard field of the same name. */
  lemma CustomOverrides(issue: IssueCreate, key: string)
    requires UniqueKeys(Custom(issue))
    requires Get(Custom(issue), key).Some?
    ensures Get(JiraFields(issue), key) == Get(Custom(issue), key)
  {
    FieldLookup(issue, key);
  }

  /** The keys of `d` start with `ks`. */
  predicate KeysStartWith(d: Dict, ks: seq<string>)
  {
    |Keys(d)| >= |ks| && Keys(d)[..|ks|] == ks
  }

  /** An assignment keeps the keys at the front of a dictionary. */
  lemma SetKeepsFront(d: Dict, ks: seq<string>, k: string, v: Json)
    requires KeysStartWith(d, ks)
    ensures KeysStartWith(Set(d, k, v), ks)
  {
    SetKeys(d, k, v);
    if k !in Keys(d) {
      assert (Keys(d) + [k])[..|ks|] == Keys(d)[..|ks|];
    }
  }

  /** The mandatory keys come first in the body, in the source's order; every other field comes after them. */
  lemma FieldOrder(issue: IssueCreate)
    ensures KeysStartWith(JiraFields(issue), MandatoryKeys)
  {
    var f0 := MandatoryFields(issue);
    var f1 := WithPriority(f0, issue);
    var f2 := WithLabels(f1, issue);
    var f3 := WithAssignee(f2, issue);
    var f4 := WithComponents(f3, issue);
    var f5 := WithParent(f4, issue);
    var ks := MandatoryKeys;
    FrontEntry(f0, "");
    FrontEntry(f0[1..], "");
    FrontEntry(f0[2..], "");
    FrontEntry(f0[3..], "");
    assert f0[1..][1..] == f0[2..] && f0[2..][1..] == f0[3..] && f0[3..][1..] == [];
    assert Keys(f0) == ks;
    if issue.priority.Some? { SetKeepsFront(f0, ks, "priority", NameObject(issue.priority.value.Value())); }
    if Truthy(issue.labels) { SetKeepsFront(f1, ks, "labels", JList(Strings(issue.labels.value))); }
    if Truthy(issue.assignee) { SetKeepsFront(f2, ks, "assignee", NameObject(issue.assignee.value)); }
    if Truthy(issue.components) { SetKeepsFront(f3, ks, "components", JList(ComponentObjects(issue.components.value))); }
    if Truthy(issue.parentKey) { SetKeepsFront(f4, ks, "parent", KeyObject(issue.parentKey.value)); }
    if Truthy(issue.customFields) {
      UpdateKeys(f5, issue.customFields.value);
      var after := Keys(Update(f5, issue.customFields.value));
      assert after[..|ks|] == after[..|Keys(f5)|][..|ks|];
    }
  }

  /** Like every Python dictionary, the body never holds a key twice. */
  lemma FieldsUnique(issue: IssueCreate)
    ensures UniqueKeys(JiraFields(issue))
  {
    var f0 := MandatoryFields(issue);
    var f1 := WithPriority(f0, issue);
    var f2 := WithLabels(f1, issue);
    var f3 := WithAssignee(f2, issue);
    var f4 := WithComponents(f3, issue);
    var f5 := WithParent(f4, issue);
    assert UniqueKeys(f0);
    if issue.priority.Some? { SetUnique(f0, "priority", NameObject(issue.priority.value.Value())); }
    if Truthy(issue.labels) { SetUnique(f1, "labels", JList(Strings(issue.labels.value))); }
    if Truthy(issue.assignee) { SetUnique(f2, "assignee", NameObject(issue.assignee.value)); }
    if Truthy(issue.components) { SetUnique(f3, "components", JList(ComponentObjects(issue.components.value))); }
    if Truthy(issue.parentKey) { SetUnique(f4, "parent", KeyObject(issue.parentKey.value)); }
    if Truthy(issue.customFields) { UpdateUnique(f5, issue.customFields.value); }
  }

  // ---------------------------------------------------------------------------
  // `JiraConfig` and its missing-variable rule.

  /** `JiraConfig`. */
  datatype JiraConfig = JiraConfig(
    baseUrl: string,
    email: string,
    apiToken: string,
    projectKey: Option<string>,
    timeoutSeconds: int)

  /** The timeout when none is configured, in seconds. */
  const DefaultTimeout := 30

  const BaseUrlVariable := "JIRA_BASE_URL"
  const EmailVariable := "JIRA_EMAIL"
  const ApiTokenVariable := "JIRA_API_TOKEN"

  /** The text that precedes the list of missing variables in the error. */
  const MissingPrefix := "Missing " + "required " + "environment " + "variables: "

  /** The required variables that are unset or empty, in the order base URL, email, token. */
  function Missing(baseUrl: Option<string>, email: Option<string>, apiToken: Option<string>): seq<string>
  {
    (if !Truthy(baseUrl) then [BaseUrlVariable] else [])
    + (if !Truthy(email) then [EmailVariable] else [])
    + (if !Truthy(apiToken) then [ApiTokenVariable] else [])
  }

  /**
   * `JiraConfig.from_env` once the environment has been read: the values of
   * `JIRA_BASE_URL`, `JIRA_EMAIL`, `JIRA_API_TOKEN`, `JIRA_PROJECT_KEY` and the
   * already parsed `JIRA_TIMEOUT_SECONDS`, each absent when unset.
   */
  method FromEnv(baseUrl: Option<string>, email: Option<string>, apiToken: Option<string>,
                 projectKey: Option<string>, timeoutSeconds: Option<int>)
    returns (r: Result<JiraConfig, string>)
    ensures r.Failure? <==> !Truthy(baseUrl) || !Truthy(email) || !Truthy(apiToken)
    ensures r.Failure? ==> r.error == MissingPrefix + Join(Missing(baseUrl, email, apiToken), ", ")
    ensures r.Success? ==> r.value == JiraConfig(baseUrl.value, email.value, apiToken.value, projectKey,
      if timeoutSeconds.Some? then timeoutSeconds.value else DefaultTimeout)
  {
    if !Truthy(baseUrl) || !Truthy(email) || !Truthy(apiToken) {
      var missing: seq<string> := [];
      if !Truthy(baseUrl) {
        missing := missing + [BaseUrlVariable];
      }
      if !Truthy(email) {
        missing := missing + [EmailVariable];
      }
      if !Truthy(apiToken) {
        missing := missing + [ApiTokenVariable];
      }
      assert missing == Missing(baseUrl, email, apiToken);
      return Failure(MissingPrefix + Join(missing, ", "));
    }
    var timeout := if timeoutSeconds.Some? then timeoutSeconds.value else DefaultTimeout;
    r := Success(JiraConfig(baseUrl.value, email.value, apiToken.value, projectKey, timeout));
  }

  /** The position of a required variable in the order the source checks them. */
  function Rank(name: string): int
  {
    if name == BaseUrlVariable then 0 else if name == EmailVariable then 1 else 2
  }

  /** The error names exactly the unset or empty variables, each once, in the order the source checks them. */
  lemma MissingExactly(baseUrl: Option<string>, email: Option<string>, apiToken: Option<string>)
    ensures var m := Missing(baseUrl, email, apiToken);
      && (BaseUrlVariable in m <==> !Truthy(baseUrl))
      && (EmailVariable in m <==> !Truthy(email))
      && (ApiTokenVariable in m <==> !Truthy(apiToken))
      && (forall x :: x in m ==> x == BaseUrlVariable || x == EmailVariable || x == ApiTokenVariable)
      && (forall i, j :: 0 <= i < j < |m| ==> Rank(m[i]) < Rank(m[j]))
      && (m == [] <==> Truthy(baseUrl) && Truthy(email) && Truthy(apiToken))
  {
  }

  // ---------------------------------------------------------------------------
  // `IssueResponse.from_jira_issue`.

  /** An object with an optional `name` attribute (a priority or a status). */
  datatype Resource = Resource(name: Option<string>)

  /** A user with an optional `emailAddress` attribute. */
  datatype User = User(emailAddress: Option<string>)

  /**
   * The fields of an issue as the Jira library returns them. `None` is a
   * value of `None`; for `description` and `labels`, which the source reads
   * through `getattr` with a default, it also stands for a missing attribute.
   */
  datatype IssueFields = IssueFields(
    summary: string,
    description: Option<string>,
    statusName: string,
    priority: Option<Resource>,
    assignee: Option<User>,
    labels: Option<seq<string>>,
    created: string,
    updated: string)

  /** An issue as the Jira library returns it, with the link its `permalink()` gives. */
  datatype JiraIssue = JiraIssue(key: string, id: string, fields: IssueFields, permalink: string)

  /** `IssueResponse`. */
  datatype IssueResponse = IssueResponse(
    key: string,
    id: string,
    summary: string,
    description: Option<string>,
    status: string,
    priority: Option<string>,
    assignee: Option<string>,
    labels: seq<string>,
    url: string,
    created: string,
    updated: string)

  /**
   * `from_jira_issue`: copies the identity, text, link and time fields; takes
   * the status's name, the priority's `name` and the assignee's `emailAddress`,
   * a `None` priority or assignee giving `None`; absent labels give `[]`.
   */
  function FromJiraIssue(issue: JiraIssue): (r: IssueResponse)
    ensures r.key == issue.key && r.id == issue.id && r.url == issue.permalink
    ensures r.summary == issue.fields.summary && r.description == issue.fields.description
    ensures r.status == issue.fields.statusName
    ensures issue.fields.priority.None? ==> r.priority.None?
    ensures issue.fields.priority.Some? ==> r.priority == issue.fields.priority.value.name
    ensures issue.fields.assignee.None? ==> r.assignee.None?
    ensures issue.fields.assignee.Some? ==> r.assignee == issue.fields.assignee.value.emailAddress
    ensures issue.fields.labels.None? ==> r.labels == []
    ensures issue.fields.labels.Some? ==> r.labels == issue.fields.labels.value
    ensures r.created == issue.fields.created && r.updated == issue.fields.updated
  {
    var f := issue.fields;
    IssueResponse(
      issue.key, issue.id, f.summary, f.description, f.statusName,
      if f.priority.Some? then f.priority.value.name else None,
      if f.assignee.Some? then f.assignee.value.emailAddress else None,
      if f.labels.Some? then f.labels.value else [],
      issue.permalink, f.created, f.updated)
  }

  /** An issue as the library would return it for a given response. */
  function ToJiraIssue(r: IssueResponse): JiraIssue
  {
    JiraIssue(r.key, r.id,
      IssueFields(r.summary, r.description, r.status,
        if r.priority.Some? then Some(Resource(r.priority)) else None,
        if r.assignee.Some? then Some(User(r.assignee)) else None,
        Some(r.labels), r.created, r.updated),
      r.url)
  }

  /** The projection loses nothing a response holds: reading back an issue built from a response gives the response. */
  lemma ResponseRoundTrip(r: IssueResponse)
    ensures FromJiraIssue(ToJiraIssue(r)) == r
  {
  }
}
