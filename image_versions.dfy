/** Control V-242442: old container image versions must be removed once new ones are deployed.

    The image references of all pods are collected, duplicates are dropped, each reference is
    split into a name and a version at its first ':', and the versions are grouped by name.
    Each name then raises one expectation that it runs at most one version. */
module ImageVersions {
  import opened Kube
  import opened Seqs
  import opened Text

  const DefaultVersion := "latest"

  /** An image reference split into the name it is tallied under and its version. The name is
      `None` only for the empty reference, which Ruby's `split` turns into no parts at all. */
  datatype ImageRef = ImageRef(name: Option<string>, version: string)

  /** The image lists of the pods, in pod order (the `images <<` loop). */
  function ImageLists(pods: seq<Pod>): (r: seq<seq<string>>)
    ensures |r| == |pods|
  {
    if pods == [] then [] else ImageLists(pods[..|pods| - 1]) + [pods[|pods| - 1].images]
  }

  /** The distinct image references of the cluster, in order of first appearance. */
  function DistinctImages(pods: seq<Pod>): seq<string>
  {
    Uniq(Flatten(ImageLists(pods)))
  }

  /** The position of the first ':' of a string, if any. */
  function FirstColon(s: string): (r: Option<nat>)
    ensures r.None? ==> ':' !in s
    ensures r.Some? ==> r.value < |s| && s[r.value] == ':' && ':' !in s[..r.value]
  {
    if s == [] then None
    else if s[0] == ':' then Some(0)
    else match FirstColon(s[1..])
      case None => None
      case Some(i) =>
        assert s[..i + 1] == [s[0]] + s[1..][..i];
        Some(i + 1)
  }

  /** `image.split(':', 2)` followed by defaulting a missing version to 'latest'. */
  function ParseImage(image: string): (r: ImageRef)
    ensures image == "" ==> r == ImageRef(None, DefaultVersion)
    ensures image != "" && ':' !in image ==> r == ImageRef(Some(image), DefaultVersion)
    ensures ':' in image ==> r.name.Some? && ':' !in r.name.value && r.name.value + ":" + r.version == image
  {
    if image == "" then ImageRef(None, DefaultVersion)
    else match FirstColon(image)
      case None => ImageRef(Some(image), DefaultVersion)
      case Some(i) =>
        assert image == image[..i] + ":" + image[i + 1..];
        ImageRef(Some(image[..i]), image[i + 1..])
  }

  lemma {:induction false} FirstColonAfter(name: string, rest: string)
    requires ':' !in name
    ensures FirstColon(name + ":" + rest) == Some(|name|)
  {
    if name != [] {
      assert (name + ":" + rest)[1..] == name[1..] + ":" + rest;
      FirstColonAfter(name[1..], rest);
    }
  }

  /** The split happens at the first ':' only: everything after it, further colons included
      and possibly nothing at all, is the version. */
  lemma SplitAtFirstColon(name: string, version: string)
    requires ':' !in name
    ensures ParseImage(name + ":" + version) == ImageRef(Some(name), version)
  {
    var image := name + ":" + version;
    FirstColonAfter(name, version);
    assert image[..|name|] == name;
    assert image[|name| + 1..] == version;
  }

  /** The grouping the control builds: names in insertion order (Ruby hashes keep it), and
      for each name the versions appended under it. */
  datatype Tally = Tally(names: seq<Option<string>>, versions: map<Option<string>, seq<string>>)

  /** Names are listed once each, exactly the keys of the map, and no group is empty. */
  ghost predicate WellFormed(t: Tally)
  {
    && Distinct(t.names)
    && (forall n :: n in t.versions <==> n in t.names)
    && (forall n :: n in t.versions ==> |t.versions[n]| > 0)
  }

  /** One step of the tally loop: append to the name's group, or start a new group at the end
      of the names. No other group changes, and a well-formed tally stays well-formed. */
  function Record(t: Tally, r: ImageRef): (u: Tally)
    ensures u.versions.Keys == t.versions.Keys + {r.name}
    ensures u.versions[r.name] == (if r.name in t.versions then t.versions[r.name] else []) + [r.version]
    ensures forall n :: n in t.versions && n != r.name ==> u.versions[n] == t.versions[n]
    ensures u.names == if r.name in t.versions then t.names else t.names + [r.name]
    ensures WellFormed(t) ==> WellFormed(u)
  {
    assert WellFormed(t) && r.name !in t.versions ==>
      forall i :: 0 <= i < |t.names| ==> t.names[i] != r.name;
    if r.name in t.versions then Tally(t.names, t.versions[r.name := t.versions[r.name] + [r.version]])
    else Tally(t.names + [r.name], t.versions[r.name := [r.version]])
  }

  /** The tally of a list of image references, built in list order. */
  function TallyOf(images: seq<string>): (t: Tally)
    ensures WellFormed(t)
  {
    if images == [] then Tally([], map[])
    else
      var prev := TallyOf(images[..|images| - 1]);
      var r := ParseImage(images[|images| - 1]);
      Record(prev, r)
  }

  /** The names of a list of image references, in list order. */
  function Names(images: seq<string>): (r: seq<Option<string>>)
    ensures |r| == |images|
  {
    if images == [] then [] else Names(images[..|images| - 1]) + [ParseImage(images[|images| - 1]).name]
  }

  /** The versions of the references in a list that have the given name, in list order. */
  function VersionsOf(images: seq<string>, name: Option<string>): seq<string>
  {
    if images == [] then []
    else
      var r := ParseImage(images[|images| - 1]);
      VersionsOf(images[..|images| - 1], name) + if r.name == name then [r.version] else []
  }

  function NameText(name: Option<string>): string
  {
    match name
    case None => ""
    case Some(n) => n
  }

  function Quoted(versions: seq<string>): seq<string>
  {
    if versions == [] then [] else Quoted(versions[..|versions| - 1]) + ["\"" + versions[|versions| - 1] + "\""]
  }

  function VersionsDescription(name: Option<string>, versions: seq<string>): string
  {
    "Image " + NameText(name) + "; versions [" + Join(Quoted(versions), ", ") + "] count"
  }

  /** The expectation for one name: `versions.length` should not be `> 1`. */
  function NameExpectation(name: Option<string>, versions: seq<string>): (e: Expectation)
    ensures e.outcome != Skip
    ensures e.outcome == Fail <==> |versions| > 1
  {
    Expectation(VersionsDescription(name, versions), Verdict(!(|versions| > 1)))
  }

  /** One expectation per name, in the given order. */
  function NameExpectations(names: seq<Option<string>>, versions: map<Option<string>, seq<string>>): seq<Expectation>
    requires forall n :: n in names ==> n in versions
  {
    if names == [] then []
    else
      var last := names[|names| - 1];
      NameExpectations(names[..|names| - 1], versions) + [NameExpectation(last, versions[last])]
  }

  /** What the control reports for a cluster: one expectation per distinct image name, none
      of them skipped. */
  function VersionReport(pods: seq<Pod>): (r: seq<Expectation>)
    ensures |r| == |Uniq(Names(DistinctImages(pods)))|
    ensures forall e :: e in r ==> e.outcome != Skip
  {
    var t := TallyOf(DistinctImages(pods));
    TallyReportShape(DistinctImages(pods));
    NameExpectations(t.names, t.versions)
  }

  /** The `images <<` loop: one image list per pod, in pod order. */
  method CollectImageLists(pods: seq<Pod>) returns (collected: seq<seq<string>>)
    ensures collected == ImageLists(pods)
  {
    collected := [];
    var i := 0;
    while i < |pods|
      invariant 0 <= i <= |pods|
      invariant collected == ImageLists(pods[..i])
    {
      assert pods[..i + 1][..i] == pods[..i];
      collected := collected + [pods[i].images];
      i := i + 1;
    }
    assert pods[..i] == pods;
  }

  /** The tally loop: split each reference, then append its version to its name's group or
      start a new group. */
  method TallyImages(images: seq<string>) returns (names: seq<Option<string>>, versions: map<Option<string>, seq<string>>)
    ensures Tally(names, versions) == TallyOf(images)
  {
    names, versions := [], map[];
    var j := 0;
    while j < |images|
      invariant 0 <= j <= |images|
      invariant Tally(names, versions) == TallyOf(images[..j])
    {
      assert images[..j + 1][..j] == images[..j];
      var r := ParseImage(images[j]);
      assert TallyOf(images[..j + 1]) == Record(TallyOf(images[..j]), r);
      if r.name in versions {
        versions := versions[r.name := versions[r.name] + [r.version]];
      } else {
        names := names + [r.name];
        versions := versions[r.name := [r.version]];
      }
      j := j + 1;
    }
    assert images[..j] == images;
  }

  /** The reporting loop over the tally, in insertion order of the names. */
  method RaiseNameExpectations(names: seq<Option<string>>, versions: map<Option<string>, seq<string>>)
    returns (es: seq<Expectation>)
    requires forall n :: n in names ==> n in versions
    ensures es == NameExpectations(names, versions)
  {
    es := [];
    var k := 0;
    while k < |names|
      invariant 0 <= k <= |names|
      invariant es == NameExpectations(names[..k], versions)
    {
      assert names[..k + 1][..k] == names[..k];
      var name := names[k];
      es := es + [NameExpectation(name, versions[name])];
      k := k + 1;
    }
    assert names[..k] == names;
  }

  /** The control body over one snapshot of the cluster's pods. */
  method CheckImageVersions(pods: seq<Pod>) returns (es: seq<Expectation>)
    ensures es == VersionReport(pods)
  {
    var collected := CollectImageLists(pods);
    var images := Uniq(Flatten(collected));
    var names, versions := TallyImages(images);
    es := RaiseNameExpectations(names, versions);
  }

  /** Every image reference of every pod, and nothing else, is collected. */
  lemma {:induction false} CollectedImages(pods: seq<Pod>)
    ensures forall x :: x in Flatten(ImageLists(pods)) <==> exists p :: p in pods && x in p.images
  {
    if pods != [] {
      var init := pods[..|pods| - 1];
      CollectedImages(init);
      assert ImageLists(pods)[..|pods| - 1] == ImageLists(init);
      assert pods == init + [pods[|pods| - 1]];
    }
  }

  /** A pod all of whose images already run elsewhere in the cluster changes nothing in the
      report: identical references are counted once. */
  lemma RepeatedImagesCountedOnce(pods: seq<Pod>, pod: Pod)
    requires forall x :: x in pod.images ==> exists p :: p in pods && x in p.images
    ensures VersionReport(pods + [pod]) == VersionReport(pods)
  {
    CollectedImages(pods);
    assert (pods + [pod])[..|pods|] == pods;
    assert ImageLists(pods + [pod]) == ImageLists(pods) + [pod.images];
    assert (ImageLists(pods) + [pod.images])[..|pods|] == ImageLists(pods);
    assert Flatten(ImageLists(pods + [pod])) == Flatten(ImageLists(pods)) + pod.images;
    UniqIgnoresRepeats(Flatten(ImageLists(pods)), pod.images);
  }

  /** Names are tallied in order of first appearance. */
  lemma {:induction false} TallyNames(images: seq<string>)
    ensures TallyOf(images).names == Uniq(Names(images))
  {
    if images != [] {
      var init := images[..|images| - 1];
      TallyNames(init);
      assert Names(images)[..|images| - 1] == Names(init);
    }
  }

  /** Each name's group holds exactly the versions of the references with that name, in list
      order; a name that is not a key has no such reference. */
  lemma {:induction false} TallyVersions(images: seq<string>)
    ensures forall n :: n in TallyOf(images).versions ==> TallyOf(images).versions[n] == VersionsOf(images, n)
    ensures forall n :: n !in TallyOf(images).versions ==> VersionsOf(images, n) == []
  {
    if images != [] {
      TallyVersions(images[..|images| - 1]);
    }
  }

  /** The sum of the group sizes of the names listed. */
  function Total(names: seq<Option<string>>, versions: map<Option<string>, seq<string>>): nat
    requires forall n :: n in names ==> n in versions
  {
    if names == [] then 0
    else Total(names[..|names| - 1], versions) + |versions[names[|names| - 1]]|
  }

  lemma {:induction false} TotalOtherKey(names: seq<Option<string>>, versions: map<Option<string>, seq<string>>,
                                         key: Option<string>, group: seq<string>)
    requires forall n :: n in names ==> n in versions
    requires key !in names
    ensures Total(names, versions[key := group]) == Total(names, versions)
  {
    if names != [] {
      TotalOtherKey(names[..|names| - 1], versions, key, group);
    }
  }

  lemma {:induction false} TotalGrow(names: seq<Option<string>>, versions: map<Option<string>, seq<string>>,
                                     key: Option<string>, version: string)
    requires forall n :: n in names ==> n in versions
    requires Distinct(names) && key in names
    ensures Total(names, versions[key := versions[key] + [version]]) == Total(names, versions) + 1
  {
    var init := names[..|names| - 1];
    var last := names[|names| - 1];
    if last == key {
      assert key !in init;
      TotalOtherKey(init, versions, key, versions[key] + [version]);
    } else {
      TotalGrow(init, versions, key, version);
    }
  }

  /** Each reference adds exactly one version to exactly one group. */
  lemma {:induction false} TallySize(images: seq<string>)
    ensures Total(TallyOf(images).names, TallyOf(images).versions) == |images|
  {
    if images != [] {
      var init := images[..|images| - 1];
      var prev := TallyOf(init);
      var r := ParseImage(images[|images| - 1]);
      TallySize(init);
      if r.name in prev.versions {
        TotalGrow(prev.names, prev.versions, r.name, r.version);
      } else {
        TotalOtherKey(prev.names, prev.versions, r.name, [r.version]);
        var t := Record(prev, r);
        assert t.names[..|t.names| - 1] == prev.names;
      }
    }
  }

  /** The groups of the cluster's tally together hold one version per distinct image reference. */
  lemma DistinctImagesCounted(pods: seq<Pod>)
    ensures Distinct(DistinctImages(pods))
    ensures forall x :: x in DistinctImages(pods) <==> exists p :: p in pods && x in p.images
    ensures var t := TallyOf(DistinctImages(pods)); Total(t.names, t.versions) == |DistinctImages(pods)|
  {
    CollectedImages(pods);
    TallySize(DistinctImages(pods));
  }

  lemma {:induction false} NameExpectationsAt(names: seq<Option<string>>, versions: map<Option<string>, seq<string>>, i: nat)
    requires forall n :: n in names ==> n in versions
    requires i < |names|
    ensures |NameExpectations(names, versions)| == |names|
    ensures NameExpectations(names, versions)[i] == NameExpectation(names[i], versions[names[i]])
  {
    var init := names[..|names| - 1];
    if i < |init| {
      NameExpectationsAt(init, versions, i);
    } else if init != [] {
      NameExpectationsAt(init, versions, 0);
    }
  }

  lemma {:induction false} NameExpectationsLength(names: seq<Option<string>>, versions: map<Option<string>, seq<string>>)
    requires forall n :: n in names ==> n in versions
    ensures |NameExpectations(names, versions)| == |names|
  {
    if names != [] {
      NameExpectationsLength(names[..|names| - 1], versions);
    }
  }

  /** The tally of a list raises one expectation per name of the list, in order of first
      appearance, judging all the versions that name carries in the list. */
  lemma TallyReportShape(images: seq<string>)
    ensures var t := TallyOf(images);
      var r := NameExpectations(t.names, t.versions);
      var names := Uniq(Names(images));
      && |r| == |names|
      && forall i :: 0 <= i < |r| ==> r[i] == NameExpectation(names[i], VersionsOf(images, names[i]))
  {
    var t := TallyOf(images);
    TallyNames(images);
    TallyVersions(images);
    NameExpectationsLength(t.names, t.versions);
    forall i | 0 <= i < |t.names|
      ensures NameExpectations(t.names, t.versions)[i] == NameExpectation(t.names[i], VersionsOf(images, t.names[i]))
    {
      NameExpectationsAt(t.names, t.versions, i);
      assert t.names[i] in t.versions;
    }
  }

  /** One expectation per distinct image name, in order of first appearance; each judges all
      the versions that name carries, so it fails exactly when there is more than one. */
  lemma ReportShape(pods: seq<Pod>)
    ensures var images := DistinctImages(pods);
      var r := VersionReport(pods);
      var names := Uniq(Names(images));
      && |r| == |names|
      && forall i :: 0 <= i < |r| ==> r[i] == NameExpectation(names[i], VersionsOf(images, names[i]))
  {
    TallyReportShape(DistinctImages(pods));
  }

  /** A cluster without image references raises no expectation at all, not even a Skip. */
  lemma {:induction false} NoImagesNoExpectations(pods: seq<Pod>)
    requires forall p :: p in pods ==> p.images == []
    ensures Flatten(ImageLists(pods)) == []
    ensures VersionReport(pods) == []
  {
    if pods != [] {
      var init := pods[..|pods| - 1];
      NoImagesNoExpectations(init);
      assert ImageLists(pods)[..|pods| - 1] == ImageLists(init);
      assert pods[|pods| - 1] in pods;
    }
  }

  lemma UniqOfTwo(images: seq<string>)
    requires |images| == 2 && images[0] != images[1]
    ensures Uniq(images) == images
  {
  }

  lemma TallyOfOne(images: seq<string>)
    requires |images| == 1
    ensures var r := ParseImage(images[0]); TallyOf(images) == Tally([r.name], map[r.name := [r.version]])
  {
  }

  /** Two references with the same name make one group holding both versions, in order. */
  lemma TallyOfSameName(images: seq<string>, name: string, first: string, second: string)
    requires |images| == 2
    requires ParseImage(images[0]) == ImageRef(Some(name), first)
    requires ParseImage(images[1]) == ImageRef(Some(name), second)
    ensures TallyOf(images) == Tally([Some(name)], map[Some(name) := [first, second]])
  {
    var init := images[..1];
    assert images[..|images| - 1] == init;
    TallyOfOne(init);
    assert TallyOf(images) == Record(Tally([Some(name)], map[Some(name) := [first]]), ImageRef(Some(name), second));
    SecondVersion(Some(name), first, second);
  }

  /** A second version of a name already tallied joins that name's group. */
  lemma SecondVersion(name: Option<string>, first: string, second: string)
    ensures Record(Tally([name], map[name := [first]]), ImageRef(name, second))
      == Tally([name], map[name := [first, second]])
  {
    var t1 := Tally([name], map[name := [first]]);
    assert t1.versions[name] + [second] == [first, second];
    assert t1.versions[name := [first, second]] == map[name := [first, second]];
  }

  /** Two distinct references with the same name make one group holding both versions, and
      that group's expectation fails. */
  lemma SameNameTwice(images: seq<string>, name: string, first: string, second: string)
    requires |images| == 2 && images[0] != images[1]
    requires ParseImage(images[0]) == ImageRef(Some(name), first)
    requires ParseImage(images[1]) == ImageRef(Some(name), second)
    ensures Uniq(images) == images
    ensures TallyOf(images) == Tally([Some(name)], map[Some(name) := [first, second]])
    ensures |NameExpectations(TallyOf(images).names, TallyOf(images).versions)| == 1
    ensures NameExpectations(TallyOf(images).names, TallyOf(images).versions)[0].outcome == Fail
  {
    UniqOfTwo(images);
    TallyOfSameName(images, name, first, second);
    OneGroupReport(Some(name), [first, second]);
  }

  /** A tally of one group raises exactly that group's expectation. */
  lemma OneGroupReport(name: Option<string>, versions: seq<string>)
    ensures NameExpectations([name], map[name := versions]) == [NameExpectation(name, versions)]
  {
    var names := [name];
    assert names[..0] == [];
  }

  /** The report of a cluster is the report of its distinct references' tally. */
  lemma ReportOfImages(pods: seq<Pod>, images: seq<string>)
    requires DistinctImages(pods) == images
    ensures VersionReport(pods) == NameExpectations(TallyOf(images).names, TallyOf(images).versions)
  {
  }

  /** The references of the pod of `BareAndLatestPodFails`, in order. */
  lemma BareAndLatestImages(pods: seq<Pod>)
    requires pods == [Pod("web", "shop", [], ["app", "app:latest"], "")]
    ensures Flatten(ImageLists(pods)) == ["app", "app:latest"]
  {
    var images: seq<string> := ["app", "app:latest"];
    var lists: seq<seq<string>> := [images];
    assert pods[..0] == [];
    assert ImageLists(pods) == lists;
    assert lists[..0] == [];
  }

  /** A cluster running exactly two distinct references with the same name reports that name
      once, with both versions, and fails it. */
  lemma SameNameCollide(pods: seq<Pod>, images: seq<string>, name: string, first: string, second: string)
    requires Flatten(ImageLists(pods)) == images
    requires |images| == 2 && images[0] != images[1]
    requires ParseImage(images[0]) == ImageRef(Some(name), first)
    requires ParseImage(images[1]) == ImageRef(Some(name), second)
    ensures TallyOf(DistinctImages(pods)) == Tally([Some(name)], map[Some(name) := [first, second]])
    ensures |VersionReport(pods)| == 1 && VersionReport(pods)[0].outcome == Fail
  {
    SameNameTwice(images, name, first, second);
    assert DistinctImages(pods) == images;
    ReportOfImages(pods, images);
  }

  /** How the references of `BareAndLatestCollide` split. */
  lemma BareAndLatestParsed()
    ensures ParseImage("app") == ImageRef(Some("app"), "latest")
    ensures ParseImage("app:latest") == ImageRef(Some("app"), "latest")
    ensures "app" != "app:latest"
  {
    SplitAtFirstColon("app", "latest");
    assert "app" + ":" + "latest" == "app:latest";
  }

  /** A bare reference and the same name with ':latest' are two distinct references that both
      tally 'latest' under one name, so that name fails: for any cluster running exactly these
      two references, such as the one of `BareAndLatestPodFails`. */
  lemma BareAndLatestCollide(pods: seq<Pod>)
    requires Flatten(ImageLists(pods)) == ["app", "app:latest"]
    ensures TallyOf(DistinctImages(pods)) == Tally([Some("app")], map[Some("app") := ["latest", "latest"]])
    ensures |VersionReport(pods)| == 1 && VersionReport(pods)[0].outcome == Fail
  {
    var images: seq<string> := ["app", "app:latest"];
    BareAndLatestParsed();
    SameNameCollide(pods, images, "app", "latest", "latest");
  }

  /** The one-pod cluster running `app` and `app:latest` reports `app` once, and fails it. */
  lemma BareAndLatestPodFails(pods: seq<Pod>)
    requires pods == [Pod("web", "shop", [], ["app", "app:latest"], "")]
    ensures |VersionReport(pods)| == 1 && VersionReport(pods)[0].outcome == Fail
  {
    BareAndLatestImages(pods);
    BareAndLatestCollide(pods);
  }

  /** The references of the pods of `TwoVersionPodsFail`, in order. */
  lemma TwoVersionsImages(pods: seq<Pod>)
    requires pods == [Pod("a", "shop", [], ["app:1.2"], ""), Pod("b", "shop", [], ["app:1.3"], "")]
    ensures Flatten(ImageLists(pods)) == ["app:1.2", "app:1.3"]
  {
    var lists: seq<seq<string>> := [["app:1.2"], ["app:1.3"]];
    assert pods[..1][..0] == [];
    assert pods[..|pods| - 1] == pods[..1];
    assert ImageLists(pods) == lists;
    assert lists[..1][..0] == [];
    assert lists[..|lists| - 1] == [["app:1.2"]];
  }

  /** How the references of `TwoVersionsFail` split. */
  lemma TwoVersionsParsed()
    ensures ParseImage("app:1.2") == ImageRef(Some("app"), "1.2")
    ensures ParseImage("app:1.3") == ImageRef(Some("app"), "1.3")
    ensures "app:1.2" != "app:1.3"
  {
    SplitAtFirstColon("app", "1.2");
    SplitAtFirstColon("app", "1.3");
    assert "app" + ":" + "1.2" == "app:1.2";
    assert "app" + ":" + "1.3" == "app:1.3";
    assert "app:1.2"[6] != "app:1.3"[6];
  }

  /** Pods running 'app:1.2' and 'app:1.3' tally both versions under 'app', which fails: for
      any cluster running exactly these two references, such as the one of `TwoVersionPodsFail`. */
  lemma TwoVersionsFail(pods: seq<Pod>)
    requires Flatten(ImageLists(pods)) == ["app:1.2", "app:1.3"]
    ensures TallyOf(DistinctImages(pods)) == Tally([Some("app")], map[Some("app") := ["1.2", "1.3"]])
    ensures |VersionReport(pods)| == 1 && VersionReport(pods)[0].outcome == Fail
  {
    var images: seq<string> := ["app:1.2", "app:1.3"];
    TwoVersionsParsed();
    SameNameCollide(pods, images, "app", "1.2", "1.3");
  }

  /** The two-pod cluster running `app:1.2` and `app:1.3` reports `app` once, and fails it. */
  lemma TwoVersionPodsFail(pods: seq<Pod>)
    requires pods == [Pod("a", "shop", [], ["app:1.2"], ""), Pod("b", "shop", [], ["app:1.3"], "")]
    ensures |VersionReport(pods)| == 1 && VersionReport(pods)[0].outcome == Fail
  {
    TwoVersionsImages(pods);
    TwoVersionsFail(pods);
  }
}
