/** The contact form: six pieces of form state, the project-type multi-select, and the
    submission of the form to the lead-form route. */
module ContactForm {
  import opened Wrappers
  import opened Json
  import opened Sequences

  /** The closed vocabulary of project types offered as checkboxes. */
  datatype ProjectType = BusinessWebsite | BlogWebsite | OnlineStore | EcommercePlatform

  /** The text each project type is shown and sent as. */
  function Label(t: ProjectType): string
  {
    match t
    case BusinessWebsite => "Business Website"
    case BlogWebsite => "Blog Website"
    case OnlineStore => "Online Store"
    case EcommercePlatform => "E-commerce Platform"
  }

  /** The checkboxes, in the order they are rendered. */
  const Choices: seq<ProjectType> := [BusinessWebsite, BlogWebsite, OnlineStore, EcommercePlatform]

  /** Every project type has exactly one checkbox, and no two types share a label, so a
      submitted label names one type. */
  lemma ChoicesCoverVocabulary(t: ProjectType, u: ProjectType)
    ensures t in Choices && NoDuplicates(Choices)
    ensures Label(t) == Label(u) ==> t == u
  {
  }

  /** `types.filter((x) => x !== t)`. */
  function Without(types: seq<ProjectType>, t: ProjectType): (r: seq<ProjectType>)
    ensures t !in r
    ensures IsSubsequence(r, types)
    ensures forall u :: u != t ==> (u in r <==> u in types)
    ensures forall u :: u != t ==> multiset(r)[u] == multiset(types)[u]
    ensures |r| <= |types| && (t in types ==> |r| < |types|)
  {
    if types == [] then []
    else
      assert types == [types[0]] + types[1..];
      if types[0] == t then Without(types[1..], t)
      else [types[0]] + Without(types[1..], t)
  }

  /** handleProjectTypeChange's new list: drop every occurrence of a selected type, or
      append a type that is not selected. */
  function Toggle(types: seq<ProjectType>, t: ProjectType): (r: seq<ProjectType>)
    ensures t in r <==> t !in types
    ensures forall u :: u != t ==> (u in r <==> u in types)
  {
    if t in types then Without(types, t)
    else types + [t]
  }

  /** Toggling a type that is not selected appends it and leaves every entry in place. */
  lemma ToggleAppends(types: seq<ProjectType>, t: ProjectType)
    requires t !in types
    ensures |Toggle(types, t)| == |types| + 1
    ensures Toggle(types, t)[..|types|] == types && Toggle(types, t)[|types|] == t
  {
    assert Toggle(types, t) == types + [t];
  }

  /** Toggling a selected type removes every occurrence of it and keeps the other
      entries, with their multiplicities, in their original order. */
  lemma ToggleRemoves(types: seq<ProjectType>, t: ProjectType)
    requires t in types
    ensures t !in Toggle(types, t)
    ensures IsSubsequence(Toggle(types, t), types)
    ensures forall u :: u != t ==> multiset(Toggle(types, t))[u] == multiset(types)[u]
    ensures |Toggle(types, t)| < |types|
  {
  }

  /** Removing all occurrences of a type from a list without duplicates leaves it
      without duplicates. */
  lemma {:induction false} WithoutKeepsDistinct(types: seq<ProjectType>, t: ProjectType)
    requires NoDuplicates(types)
    ensures NoDuplicates(Without(types, t))
  {
    if types != [] {
      var tail := types[1..];
      assert types == [types[0]] + tail;
      DistinctTail(types[0], tail);
      WithoutKeepsDistinct(tail, t);
      if types[0] != t {
        DistinctCons(types[0], Without(tail, t));
      }
    }
  }

  /** A duplicate-free selection stays duplicate-free under any toggle. */
  lemma ToggleKeepsDistinct(types: seq<ProjectType>, t: ProjectType)
    requires NoDuplicates(types)
    ensures NoDuplicates(Toggle(types, t))
  {
    if t in types {
      WithoutKeepsDistinct(types, t);
    } else {
      var r := types + [t];
      forall i, j | 0 <= i < j < |r| ensures r[i] != r[j] {
        if j == |types| {
          assert r[i] == types[i];
        }
      }
    }
  }

  /** Removing a type that does not occur changes nothing. */
  lemma {:induction false} WithoutAbsent(types: seq<ProjectType>, t: ProjectType)
    requires t !in types
    ensures Without(types, t) == types
  {
    if types != [] {
      WithoutAbsent(types[1..], t);
      assert types == [types[0]] + types[1..];
    }
  }

  /** Removing a type from a list that ends with it and has it nowhere else gives the
      list without its last entry. */
  lemma {:induction false} WithoutAppended(types: seq<ProjectType>, t: ProjectType)
    requires t !in types
    ensures Without(types + [t], t) == types
  {
    if types == [] {
      assert [t][1..] == [];
    } else {
      assert (types + [t])[1..] == types[1..] + [t];
      WithoutAppended(types[1..], t);
      assert types == [types[0]] + types[1..];
    }
  }

  /** Toggling an unselected type twice restores the selection. */
  lemma ToggleTwice(types: seq<ProjectType>, t: ProjectType)
    requires t !in types
    ensures Toggle(Toggle(types, t), t) == types
  {
    assert t in types + [t];
    WithoutAppended(types, t);
  }

  /** The `FormData` object sent to the lead-form route. */
  datatype FormData = FormData(
    projectTypes: seq<ProjectType>,
    firstName: string,
    lastName: string,
    email: string,
    phoneNumber: string,
    projectDetails: string)

  /** The labels of the selected types, in selection order. */
  function Labels(types: seq<ProjectType>): (r: seq<Value>)
    ensures |r| == |types|
    ensures forall i :: 0 <= i < |types| ==> r[i] == Str(Label(types[i]))
  {
    if types == [] then [] else [Str(Label(types[0]))] + Labels(types[1..])
  }

  /** The value `JSON.stringify(formData)` serialises. */
  function FormJson(d: FormData): (v: Value)
    ensures v.Obj? && |v.members| == 6 && DistinctKeys(v.members)
    ensures Member(v.members, "projectTypes") == Some(Arr(Labels(d.projectTypes)))
    ensures Member(v.members, "firstName") == Some(Str(d.firstName))
    ensures Member(v.members, "lastName") == Some(Str(d.lastName))
    ensures Member(v.members, "email") == Some(Str(d.email))
    ensures Member(v.members, "phoneNumber") == Some(Str(d.phoneNumber))
    ensures Member(v.members, "projectDetails") == Some(Str(d.projectDetails))
  {
    var members := FormMembers(d);
    assert DistinctKeys(members);
    MemberAt(members, 0);
    MemberAt(members, 1);
    MemberAt(members, 2);
    MemberAt(members, 3);
    MemberAt(members, 4);
    MemberAt(members, 5);
    Obj(members)
  }

  /** The members of `formData`, in the order the object literal lists them. */
  function FormMembers(d: FormData): seq<(string, Value)>
  {
    [ ("projectTypes", Arr(Labels(d.projectTypes))),
      ("firstName", Str(d.firstName)),
      ("lastName", Str(d.lastName)),
      ("email", Str(d.email)),
      ("phoneNumber", Str(d.phoneNumber)),
      ("projectDetails", Str(d.projectDetails)) ]
  }

  /** The request handleSubmit sends. */
  datatype FetchRequest = FetchRequest(url: string, httpMethod: string, headers: seq<(string, string)>, body: Value)

  /** How the fetch ended: rejected, or a response whose `ok` flag and parsed JSON body
      (or the parse error) are given. */
  datatype FetchResult =
    | FetchRejected(message: string)
    | FetchResponse(ok: bool, body: Result<Value, string>)

  /** What handleSubmit ends with: the route's JSON, or the error it caught. */
  datatype SubmitOutcome = Submitted(data: Value) | Failed(error: string)

  const NotOkMessage := "Network response was not ok"

  /** The text inputs whose onChange handlers store the typed value. */
  datatype TextField = FirstName | LastName | Email | ProjectDetails

  class Form {
    var projectTypes: seq<ProjectType>
    var firstName: string
    var lastName: string
    var email: string
    var phoneNumber: string
    var projectDetails: string

    /** The selection never holds a type twice. */
    ghost predicate Valid()
      reads this
    {
      NoDuplicates(projectTypes)
    }

    /** The six `useState` slots with their initial values. */
    constructor ()
      ensures Valid()
      ensures projectTypes == [] && firstName == "" && lastName == "" && email == ""
      ensures phoneNumber == "" && projectDetails == ""
    {
      projectTypes := [];
      firstName, lastName, email := "", "", "";
      phoneNumber, projectDetails := "", "";
    }

    /** Whether a checkbox is shown checked. */
    function Checked(t: ProjectType): (r: bool)
      reads this
      ensures r <==> exists i :: 0 <= i < |projectTypes| && projectTypes[i] == t
    {
      t in projectTypes
    }

    /** The form data as handleSubmit assembles it. */
    function Data(): (d: FormData)
      reads this
    {
      FormData(projectTypes, firstName, lastName, email, phoneNumber, projectDetails)
    }

    method HandleProjectTypeChange(t: ProjectType)
      requires Valid()
      modifies this
      ensures Valid()
      ensures projectTypes == Toggle(old(projectTypes), t)
      ensures Checked(t) == !old(Checked(t))
      ensures forall u :: u != t ==> Checked(u) == old(Checked(u))
      ensures firstName == old(firstName) && lastName == old(lastName) && email == old(email)
      ensures phoneNumber == old(phoneNumber) && projectDetails == old(projectDetails)
    {
      ToggleKeepsDistinct(projectTypes, t);
      if t in projectTypes {
        projectTypes := Without(projectTypes, t);
      } else {
        projectTypes := projectTypes + [t];
      }
    }

    /** The phone input reports the raw digits and the formatted number; the formatted
        number is stored. The country it reports is not used. */
    method HandlePhoneNumberChange(value: string, formattedValue: string)
      requires Valid()
      modifies this
      ensures Valid()
      ensures phoneNumber == formattedValue
      ensures projectTypes == old(projectTypes) && firstName == old(firstName) && lastName == old(lastName)
      ensures email == old(email) && projectDetails == old(projectDetails)
    {
      phoneNumber := formattedValue;
    }

    /** A text input's onChange: the typed value replaces that field and nothing else. */
    method EditText(field: TextField, value: string)
      requires Valid()
      modifies this
      ensures Valid()
      ensures firstName == (if field == FirstName then value else old(firstName))
      ensures lastName == (if field == LastName then value else old(lastName))
      ensures email == (if field == Email then value else old(email))
      ensures projectDetails == (if field == ProjectDetails then value else old(projectDetails))
      ensures projectTypes == old(projectTypes) && phoneNumber == old(phoneNumber)
    {
      match field
      case FirstName => firstName := value;
      case LastName => lastName := value;
      case Email => email := value;
      case ProjectDetails => projectDetails := value;
    }

    /** handleSubmit: the request carries the six state values; a non-ok response and a
        body that is not JSON end the same way as a rejected fetch. Form state is not
        changed (the method modifies nothing). `response` stands for how the fetch would end. */
    method HandleSubmit(response: FetchResult) returns (request: FetchRequest, outcome: SubmitOutcome)
      ensures request.url == "/api/leadform" && request.httpMethod == "POST"
      ensures request.headers == [("Content-Type", "application/json")]
      ensures request.body == FormJson(FormData(projectTypes, firstName, lastName, email, phoneNumber, projectDetails))
      ensures outcome.Submitted? <==> response.FetchResponse? && response.ok && response.body.Success?
      ensures outcome.Submitted? ==> outcome.data == response.body.value
      ensures response.FetchRejected? ==> outcome == Failed(response.message)
      ensures response.FetchResponse? && !response.ok ==> outcome == Failed(NotOkMessage)
    {
      var formData := Data();
      request := FetchRequest("/api/leadform", "POST", [("Content-Type", "application/json")], FormJson(formData));
      match response
      case FetchRejected(message) =>
        outcome := Failed(message);
      case FetchResponse(ok, body) =>
        if !ok {
          outcome := Failed(NotOkMessage);
        } else {
          match body
          case Success(data) => outcome := Submitted(data);
          case Failure(parseError) => outcome := Failed(parseError);
        }
    }
  }
}
