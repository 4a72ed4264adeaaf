/** The create-project form of src/app/projects/new/page.tsx: a tag list
    edited by add and remove, an optional image, and a submit that sends the
    form as multipart data and then moves on to the list or shows an error. */
module NewProjectPage {
  import opened Js
  import opened Entities
  import opened Http
  import opened Client

  const CreateError := "Error al crear el proyecto"
  const MultipartHeaders: Headers := map["Content-Type" := "multipart/form-data"]

  /** The tag list's invariant: every tag is non-empty and already trimmed,
      and no tag occurs more than once. */
  predicate WellFormedTags(tags: seq<string>) {
    (forall x :: x in tags ==> x != "" && Trim(x) == x) &&
    (forall x :: x in tags ==> multiset(tags)[x] <= 1)
  }

  /** In a well-formed list, tags at different positions differ. */
  lemma WellFormedHasNoDuplicates(tags: seq<string>, i: int, j: int)
    requires WellFormedTags(tags)
    requires 0 <= i < j < |tags|
    ensures tags[i] != tags[j]
  {
    var x := tags[i];
    assert tags == tags[..j] + tags[j..];
    assert multiset(tags)[x] == multiset(tags[..j])[x] + multiset(tags[j..])[x];
    assert tags[i] in tags[..j];
    assert tags[j] in tags[j..];
  }

  /** `t.filter((x) => x !== tech)` */
  function Without(tags: seq<string>, tech: string): seq<string> {
    Filter(tags, (x: string) => x != tech)
  }

  /** Removing drops every copy of `tech`, keeps every other tag as often as
      it was there, and keeps their order. */
  lemma WithoutSpec(tags: seq<string>, tech: string, x: string)
    ensures multiset(Without(tags, tech))[x] == if x == tech then 0 else multiset(tags)[x]
    ensures x in Without(tags, tech) <==> x in tags && x != tech
    ensures IsSubsequence(Without(tags, tech), tags)
  {
    FilterCount(tags, (y: string) => y != tech, x);
    FilterMembership(tags, (y: string) => y != tech, x);
    FilterIsSubsequence(tags, (y: string) => y != tech);
  }

  /** Removing a tag keeps the list well formed. */
  lemma RemovePreservesWellFormed(tags: seq<string>, tech: string)
    requires WellFormedTags(tags)
    ensures WellFormedTags(Without(tags, tech))
  {
    forall x ensures multiset(Without(tags, tech))[x] <= 1 && (x in Without(tags, tech) ==> x in tags) {
      WithoutSpec(tags, tech, x);
    }
  }

  /** Adding a trimmed, non-empty tag that is not yet there keeps the list
      well formed. */
  lemma AddPreservesWellFormed(tags: seq<string>, input: string)
    requires WellFormedTags(tags)
    requires Trim(input) != "" && Trim(input) !in tags
    ensures WellFormedTags(tags + [Trim(input)])
  {
    TrimIdempotent(input);
    var t := Trim(input);
    assert multiset(tags + [t]) == multiset(tags) + multiset{t};
    assert multiset(tags)[t] == 0;
  }

  /** The multipart entries the form sends, in order: title, description,
      url, one `technologies[]` entry per tag in list order, and the image
      last when one was chosen. */
  predicate FormFor(fd: seq<FormField>, title: string, description: string, url: string,
                    tags: seq<string>, image: Option<File>)
  {
    |fd| == 3 + |tags| + (if image.Some? then 1 else 0) &&
    fd[0] == FormField("title", Text(title)) &&
    fd[1] == FormField("description", Text(description)) &&
    fd[2] == FormField("url", Text(url)) &&
    (forall i :: 0 <= i < |tags| ==> fd[3 + i] == FormField("technologies[]", Text(tags[i]))) &&
    (image.Some? ==> fd[3 + |tags|] == FormField("image", Blob(image.value)))
  }

  /** The entry list is determined: two lists that both fit the form are
      the same list. */
  lemma FormForIsUnique(a: seq<FormField>, b: seq<FormField>, title: string, description: string,
                        url: string, tags: seq<string>, image: Option<File>)
    requires FormFor(a, title, description, url, tags, image)
    requires FormFor(b, title, description, url, tags, image)
    ensures a == b
  {
    forall k | 0 <= k < |a| ensures a[k] == b[k] {
      if 3 <= k < 3 + |tags| {
        var i := k - 3;
        assert a[3 + i] == FormField("technologies[]", Text(tags[i])) == b[3 + i];
      }
    }
  }

  /** Builds the form data: three appends, the tag loop, the optional image. */
  method BuildFormData(title: string, description: string, url: string, tags: seq<string>, image: Option<File>)
    returns (fd: seq<FormField>)
    ensures FormFor(fd, title, description, url, tags, image)
  {
    fd := [FormField("title", Text(title))];
    fd := fd + [FormField("description", Text(description))];
    fd := fd + [FormField("url", Text(url))];
    var i := 0;
    while i < |tags|
      invariant 0 <= i <= |tags|
      invariant |fd| == 3 + i
      invariant fd[0] == FormField("title", Text(title))
      invariant fd[1] == FormField("description", Text(description))
      invariant fd[2] == FormField("url", Text(url))
      invariant forall k :: 0 <= k < i ==> fd[3 + k] == FormField("technologies[]", Text(tags[k]))
    {
      fd := fd + [FormField("technologies[]", Text(tags[i]))];
      i := i + 1;
    }
    if image.Some? {
      fd := fd + [FormField("image", Blob(image.value))];
    }
  }

  /** The component's state. */
  class NewProjectForm {
    var title: string
    var description: string
    var url: string
    var techInput: string
    var technologies: seq<string>
    var imageFile: Option<File>
    var saving: bool
    var error: Option<string>

    predicate Valid()
      reads this
    {
      WellFormedTags(technologies)
    }

    constructor ()
      ensures Valid()
      ensures title == "" && description == "" && url == "" && techInput == ""
      ensures technologies == [] && imageFile == None && !saving && error == None
    {
      title, description, url, techInput := "", "", "", "";
      technologies, imageFile, saving, error := [], None, false, None;
    }

    /** `handleAddTech`: a trimmed, non-empty input not yet in the list is
        appended and the input cleared; otherwise nothing changes. */
    method AddTech()
      requires Valid()
      modifies this`technologies, this`techInput
      ensures Valid()
      ensures Trim(old(techInput)) != "" && Trim(old(techInput)) !in old(technologies) ==>
        technologies == old(technologies) + [Trim(old(techInput))] && techInput == ""
      ensures !(Trim(old(techInput)) != "" && Trim(old(techInput)) !in old(technologies)) ==>
        technologies == old(technologies) && techInput == old(techInput)
    {
      var tech := Trim(techInput);
      if tech != "" && tech !in technologies {
        AddPreservesWellFormed(technologies, techInput);
        technologies := technologies + [tech];
        techInput := "";
      }
    }

    /** `handleRemoveTech(tech)` */
    method RemoveTech(tech: string)
      requires Valid()
      modifies this`technologies
      ensures Valid()
      ensures technologies == Without(old(technologies), tech)
    {
      RemovePreservesWellFormed(technologies, tech);
      technologies := Without(technologies, tech);
    }

    /** `handleFileChange`: the image changes only when a first file was
        picked. */
    method FileChange(files: Option<seq<File>>)
      requires Valid()
      modifies this`imageFile
      ensures Valid()
      ensures imageFile == if files.Some? && |files.value| > 0 then Some(files.value[0]) else old(imageFile)
    {
      if files.Some? && |files.value| > 0 {
        imageFile := Some(files.value[0]);
      }
    }

    /** `handleSubmit`: one multipart POST of the form data; on success the
        page moves on to the list, on failure it shows the error; `saving`
        is false at the end either way. A 401 has the adapter reset the
        session and the list first; any other outcome leaves both alone. The
        form's fields are untouched. */
    method Submit(api: Api, res: Response<()>)
      requires Valid()
      modifies this`saving, this`error, api.auth, api.projects, api.router, api.network
      ensures Valid()
      ensures !saving
      ensures |api.network.sent| == |old(api.network.sent)| + 1
      ensures api.network.sent[..|old(api.network.sent)|] == old(api.network.sent)
      ensures var r := api.network.sent[|old(api.network.sent)|];
        r.verb == Post && r.url == ProjectsPath &&
        r.headers == WithBearer(Some(MultipartHeaders), api.cookies.token) &&
        r.body.Multipart? && FormFor(r.body.parts, title, description, url, technologies, imageFile)
      ensures res.Ok? ==> error == None && api.router.log == old(api.router.log) + [Push(ProjectsRoute)]
      ensures res.Fail? ==> error == Some(CreateError)
      ensures res.Fail? ==>
        api.router.log == old(api.router.log) + if Expires(res, ProjectsPath) then [Replace(EntryRoute)] else []
      ensures Expires(res, ProjectsPath) ==> api.auth.Cleared() && api.projects.Cleared()
      ensures !Expires(res, ProjectsPath) ==> unchanged(api.auth, api.projects)
    {
      saving := true;
      error := None;
      var fd := BuildFormData(title, description, url, technologies, imageFile);
      var r := api.Send(Post, ProjectsPath, Some(MultipartHeaders), Multipart(fd), res);
      if r.Ok? {
        api.router.Navigate(Push(ProjectsRoute));
      } else {
        error := Some(CreateError);
      }
      saving := false;
    }
  }

  /** One space typed on each side of a tag is trimmed away again. */
  lemma TrimPadded(tech: string)
    requires tech != [] && !IsSpace(tech[0]) && !IsSpace(tech[|tech| - 1])
    ensures Trim(" " + tech + " ") == tech
  {
    var padded := " " + tech + " ";
    assert padded[0] == ' ' && padded[1] == tech[0];
    assert SkipSpaces(padded, 0) == 1;
    assert padded[|padded| - 1] == ' ' && padded[|padded| - 2] == tech[|tech| - 1];
    assert SkipSpacesBack(padded, 1, |padded|) == |padded| - 1;
    assert padded[1..|padded| - 1] == tech;
  }

  /** Typing a tag with a space on each side and adding it, then typing the
      bare tag again and adding: the second add is refused as a duplicate
      and leaves the input as typed. */
  method DuplicateTagScenario(tech: string) returns (tags: seq<string>, input: string)
    requires tech != [] && !IsSpace(tech[0]) && !IsSpace(tech[|tech| - 1])
    ensures tags == [tech] && input == tech
  {
    var form := new NewProjectForm();
    form.techInput := " " + tech + " ";
    TrimPadded(tech);
    form.AddTech();
    form.techInput := tech;
    TrimOfTrimmed(tech);
    form.AddTech();
    tags, input := form.technologies, form.techInput;
  }
}
