/** The pieces of the API views that compute something: the edits of a
    portfolio project's technology list, the featured flag, the sorted list
    of every technology in use, the technology filter of the project list,
    the permission rule of the two public view sets, and the storage name
    a resume's PDF is uploaded under. */
module Views {
  import opened Wrappers
  import opened Text
  import opened Models

  // -------------------------------------------------- technology list edits

  /** What an action answers: a message and the list, or a 400 error. */
  datatype TechnologyResponse =
    | Updated(message: string, technologies: seq<string>)
    | BadRequest(error: string)

  const TechnologyRequired := "Technology field is required"

  /** request.data.get('technology', '').strip(): a missing field reads as "". */
  function RequestedTechnology(field: Option<string>): (t: string)
    ensures IsStripped(t)
    ensures field.None? ==> t == ""
    ensures field.Some? ==> (t == "" <==> IsBlank(field.value))
  {
    Strip(if field.Some? then field.value else "")
  }

  predicate NoDuplicates<T(==)>(xs: seq<T>)
  {
    forall i, j :: 0 <= i < j < |xs| ==> xs[i] != xs[j]
  }

  /** The list after adding t: unchanged when t is already there, else t at the end. */
  function WithTechnology<T(==)>(techs: seq<T>, t: T): (r: seq<T>)
    ensures t in r
    ensures |techs| <= |r| <= |techs| + 1 && r[..|techs|] == techs
    ensures forall k :: 0 <= k < |r| ==> r[k] in techs || r[k] == t
    ensures t in techs ==> r == techs
    ensures t !in techs ==> r == techs + [t]
  {
    if t in techs then techs else techs + [t]
  }

  /** Adding keeps a list free of duplicates ... */
  lemma WithTechnologyKeepsNoDuplicates<T>(techs: seq<T>, t: T)
    requires NoDuplicates(techs)
    ensures NoDuplicates(WithTechnology(techs, t))
  {
    if t !in techs {
      var r := techs + [t];
      forall i, j | 0 <= i < j < |r| ensures r[i] != r[j] {
        if j == |techs| {
          assert r[i] == techs[i];
        }
      }
    }
  }

  /** ... and adding twice is adding once. */
  lemma WithTechnologyIdempotent<T>(techs: seq<T>, t: T)
    ensures WithTechnology(WithTechnology(techs, t), t) == WithTechnology(techs, t)
  {
  }

  /** list.remove(t) when t is present: the first occurrence goes. */
  function RemoveFirst<T(==)>(techs: seq<T>, t: T): (r: seq<T>)
    ensures t !in techs ==> r == techs
    ensures t in techs ==> |r| == |techs| - 1
  {
    if techs == [] then []
    else if techs[0] == t then techs[1..] else [techs[0]] + RemoveFirst(techs[1..], t)
  }

  /** One occurrence of t goes, when there is one, and nothing else. */
  lemma {:induction false} RemoveFirstCounts<T>(techs: seq<T>, t: T)
    ensures multiset(RemoveFirst(techs, t)) == multiset(techs) - multiset{t}
  {
    if techs != [] {
      assert techs == [techs[0]] + techs[1..];
      if techs[0] != t {
        RemoveFirstCounts(techs[1..], t);
      }
    }
  }

  /** The removed element is the first occurrence: what comes before it and
      what comes after it are left as they were. */
  lemma {:induction false} RemoveFirstSplits<T>(techs: seq<T>, t: T, i: nat)
    requires i < |techs| && techs[i] == t && t !in techs[..i]
    ensures RemoveFirst(techs, t) == techs[..i] + techs[i + 1..]
  {
    if i > 0 {
      var head, tail := techs[0], techs[1..];
      assert head == techs[..i][0];
      assert tail[..i - 1] == techs[..i][1..];
      RemoveFirstSplits(tail, t, i - 1);
      assert RemoveFirst(techs, t) == [head] + (tail[..i - 1] + tail[i..]);
      assert techs[..i] == [head] + tail[..i - 1];
      assert tail[i..] == techs[i + 1..];
    }
  }

  /** Removing what was just added to a list that did not hold it gives the
      list back. */
  lemma RemoveUndoesAdd<T>(techs: seq<T>, t: T)
    requires t !in techs
    ensures RemoveFirst(WithTechnology(techs, t), t) == techs
  {
    var r := techs + [t];
    RemoveFirstSplits(r, t, |techs|);
    assert r[..|techs|] == techs;
  }

  lemma SkipOne<T>(xs: seq<T>, i: nat, k: nat)
    requires i < |xs| && k < |xs| - 1
    ensures (xs[..i] + xs[i + 1..])[k] == xs[if k < i then k else k + 1]
  {
    if k >= i {
      assert (xs[..i] + xs[i + 1..])[k] == xs[i + 1..][k - i];
    }
  }

  /** Removing from a list without duplicates leaves t out of it altogether. */
  lemma RemoveFromDistinct<T>(techs: seq<T>, t: T)
    requires NoDuplicates(techs)
    ensures t !in RemoveFirst(techs, t)
    ensures NoDuplicates(RemoveFirst(techs, t))
  {
    if t in techs {
      var i :| 0 <= i < |techs| && techs[i] == t;
      assert t !in techs[..i];
      RemoveFirstSplits(techs, t, i);
      var r := techs[..i] + techs[i + 1..];
      forall a, b | 0 <= a < b < |r| ensures r[a] != r[b] {
        var a' := if a < i then a else a + 1;
        var b' := if b < i then b else b + 1;
        SkipOne(techs, i, a);
        SkipOne(techs, i, b);
        assert a' < b' < |techs|;
      }
    }
  }

  /** add_technology. The project's list is changed in place; nothing else of
      the project is touched. */
  method AddTechnology(project: PortfolioProject, field: Option<string>) returns (response: TechnologyResponse)
    modifies project`technologies
    ensures var t := RequestedTechnology(field);
      && (t == "" ==> response == BadRequest(TechnologyRequired) && project.technologies == old(project.technologies))
      && (t != "" ==> project.technologies == WithTechnology(old(project.technologies), t)
                      && response == Updated("Technology \"" + t + "\" added successfully!", project.technologies))
  {
    var technology := RequestedTechnology(field);
    if technology == "" {
      return BadRequest(TechnologyRequired);
    }
    if project.technologies == [] {
      project.technologies := [];
    }
    if technology !in project.technologies {
      project.technologies := project.technologies + [technology];
    }
    response := Updated("Technology \"" + technology + "\" added successfully!", project.technologies);
  }

  /** remove_technology. The message claims a removal whether or not the
      technology was there. */
  method RemoveTechnology(project: PortfolioProject, field: Option<string>) returns (response: TechnologyResponse)
    modifies project`technologies
    ensures var t := RequestedTechnology(field);
      && (t == "" ==> response == BadRequest(TechnologyRequired) && project.technologies == old(project.technologies))
      && (t != "" ==> project.technologies == RemoveFirst(old(project.technologies), t)
                      && response == Updated("Technology \"" + t + "\" removed successfully!", project.technologies))
  {
    var technology := RequestedTechnology(field);
    if technology == "" {
      return BadRequest(TechnologyRequired);
    }
    if project.technologies != [] && technology in project.technologies {
      project.technologies := RemoveFirst(project.technologies, technology);
    }
    response := Updated("Technology \"" + technology + "\" removed successfully!", project.technologies);
  }

  // --------------------------------------------------------------- featured

  function ToggleMessage(title: string, featured: bool): (m: string)
  {
    "Project \"" + title + "\" " + (if featured then "featured" else "unfeatured") + " successfully!"
  }

  /** The message names the project and tells the two new states apart. */
  lemma ToggleMessageTellsState(title: string)
    ensures ToggleMessage(title, true) != ToggleMessage(title, false)
    ensures ToggleMessage(title, true)[..|"Project \"" + title + "\" "|] == "Project \"" + title + "\" "
  {
    var prefix := "Project \"" + title + "\" ";
    assert ToggleMessage(title, true)[|prefix|] == 'f';
    assert ToggleMessage(title, false)[|prefix|] == 'u';
  }

  /** toggle_featured: flips the flag, so two calls restore it; answers the
      message and the new flag. */
  method ToggleFeatured(project: PortfolioProject) returns (message: string, featured: bool)
    modifies project`featured
    ensures project.featured == !old(project.featured)
    ensures featured == project.featured
    ensures message == ToggleMessage(project.title, featured)
  {
    project.featured := !project.featured;
    featured := project.featured;
    message := ToggleMessage(project.title, featured);
  }

  // ------------------------------------------------- technologies in use

  /** Every technology of every project. */
  function AllTechnologies(lists: seq<seq<string>>): (all: set<string>)
    ensures forall t :: t in all <==> exists i :: 0 <= i < |lists| && t in lists[i]
  {
    if lists == [] then {}
    else
      var init, last := lists[..|lists| - 1], lists[|lists| - 1];
      var all := AllTechnologies(init) + (set t | t in last);
      assert forall i :: 0 <= i < |init| ==> init[i] == lists[i];
      all
  }

  predicate StrictlySorted(xs: seq<string>)
  {
    forall i, j :: 0 <= i < j < |xs| ==> StrLess(xs[i], xs[j])
  }

  /** A strictly sorted list holds each value once. */
  lemma StrictlySortedIsDistinct(xs: seq<string>)
    requires StrictlySorted(xs)
    ensures NoDuplicates(xs)
  {
    forall i, j | 0 <= i < j < |xs| ensures xs[i] != xs[j] {
      if xs[i] == xs[j] {
        StrLessIrreflexive(xs[i]);
      }
    }
  }

  /** A least element of a non-empty set of strings. */
  method Least(s: set<string>) returns (m: string)
    requires s != {}
    ensures m in s && forall x :: x in s && x != m ==> StrLess(m, x)
  {
    m :| m in s;
    var rest := s - {m};
    while rest != {}
      invariant m in s && rest <= s
      invariant forall x :: x in s && x !in rest && x != m ==> StrLess(m, x)
      decreases |rest|
    {
      var x :| x in rest;
      if StrLess(x, m) {
        forall y | y in s && y !in rest && y != x ensures StrLess(x, y) {
          if y != m {
            StrLessTransitive(x, m, y);
          }
        }
        m := x;
      } else if x != m {
        StrLessTotal(x, m);
      }
      rest := rest - {x};
    }
  }

  /** sorted(list(s)) */
  method SortedList(s: set<string>) returns (sorted: seq<string>)
    ensures StrictlySorted(sorted)
    ensures forall x :: x in sorted <==> x in s
  {
    sorted := [];
    var rest := s;
    while rest != {}
      invariant rest <= s
      invariant forall x :: x in s <==> x in sorted || x in rest
      invariant forall x :: x in sorted ==> x !in rest
      invariant StrictlySorted(sorted)
      invariant forall i, y :: 0 <= i < |sorted| && y in rest ==> StrLess(sorted[i], y)
      decreases |rest|
    {
      var m := Least(rest);
      sorted := sorted + [m];
      rest := rest - {m};
    }
  }

  /** technologies: the distinct technologies of all projects, sorted; a
      project whose list is empty adds nothing. */
  method Technologies(lists: seq<seq<string>>) returns (sorted: seq<string>)
    ensures StrictlySorted(sorted) && NoDuplicates(sorted)
    ensures forall t :: t in sorted <==> t in AllTechnologies(lists)
  {
    var all: set<string> := {};
    for i := 0 to |lists|
      invariant all == AllTechnologies(lists[..i])
    {
      assert lists[..i + 1][..i] == lists[..i];
      if lists[i] != [] {
        all := all + (set t | t in lists[i]);
      }
    }
    assert lists[..|lists|] == lists;
    sorted := SortedList(all);
    StrictlySortedIsDistinct(sorted);
  }

  // ------------------------------------------------------ technology filter

  /** The technologies query parameter of the project list: absent or empty
      means no filter; otherwise its comma-separated pieces, each stripped. */
  function TechnologyFilter(param: Option<string>): (r: Option<seq<string>>)
    ensures r.Some? <==> param.Some? && param.value != ""
    ensures r.Some? ==> |r.value| >= 1
    ensures r.Some? ==> forall k :: 0 <= k < |r.value| ==> IsStripped(r.value[k]) && ',' !in r.value[k]
  {
    if param.Some? && param.value != "" then
      var pieces := SplitOn(param.value, ',');
      var r := StripEach(pieces);
      forall k | 0 <= k < |r| ensures ',' !in r[k] {
        StripKeepsOut(pieces[k], ',');
      }
      Some(r)
    else None
  }

  /** Tags written back with commas are read back as the same tags. */
  lemma TechnologyFilterRoundTrip(tags: seq<string>)
    requires tags != []
    requires forall k :: 0 <= k < |tags| ==> tags[k] != "" && IsStripped(tags[k]) && ',' !in tags[k]
    ensures TechnologyFilter(Some(Join([','], tags))) == Some(tags)
  {
    var j := Join([','], tags);
    JoinStartsWithFirst([','], tags);
    assert j != "";
    SplitOnJoin(tags, ',');
    StripEachOfStripped(tags);
  }

  // ------------------------------------------------------------ permissions

  datatype Permission = AllowAny | IsAuthenticated

  const WriteActions: set<string> := {"create", "update", "partial_update", "destroy"}

  /** get_permissions of the resume and portfolio project view sets: one
      permission instance per class in the list. */
  function Permissions(action: string): (ps: seq<Permission>)
    ensures |ps| == 1
    ensures ps[0] == IsAuthenticated <==> action in WriteActions
  {
    if action in WriteActions then [IsAuthenticated] else [AllowAny]
  }

  /** Reading needs no login: listing, retrieving and the read-only extra actions. */
  lemma ReadActionsAreOpen()
    ensures forall a :: a in {"list", "retrieve", "active", "pdf_url", "featured", "technologies"} ==>
      Permissions(a) == [AllowAny]
  {
  }

  // -------------------------------------------------------------- public id

  const PublicIdPrefix := "resumes/resume_"

  /** The storage name a resume's PDF is uploaded under: the id, then the
      name with every space turned into '_'. */
  function PublicId(id: string, name: string): (p: string)
    ensures |p| == |PublicIdPrefix| + |id| + 1 + |name|
    ensures p[..|PublicIdPrefix| + |id|] == PublicIdPrefix + id
    ensures ' ' !in p[|PublicIdPrefix| + |id|..]
    ensures p[|PublicIdPrefix| + |id|] == '_'
    ensures forall k :: 0 <= k < |name| ==>
      p[|PublicIdPrefix| + |id| + 1 + k] == (if name[k] == ' ' then '_' else name[k])
  {
    var tail := "_" + ReplaceChar(name, ' ', '_');
    assert ' ' !in tail;
    var p := PublicIdPrefix + id + tail;
    assert p[|PublicIdPrefix| + |id|..] == tail;
    p
  }

  /** For one resume id, names without '_' get distinct storage names. */
  lemma PublicIdInjective(id: string, a: string, b: string)
    requires '_' !in a && '_' !in b
    requires PublicId(id, a) == PublicId(id, b)
    ensures a == b
  {
    var n := |PublicIdPrefix| + |id| + 1;
    var ra, rb := ReplaceChar(a, ' ', '_'), ReplaceChar(b, ' ', '_');
    assert PublicId(id, a)[n..] == ra;
    assert PublicId(id, b)[n..] == rb;
    assert |a| == |b|;
    forall k | 0 <= k < |a| ensures a[k] == b[k] {
      assert ra[k] == rb[k];
    }
  }
}
