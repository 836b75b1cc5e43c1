/** `SpaceXApiClient.getLaunches`: the GraphQL response of `GetLaunchesQuery`,
    flattened into one `LaunchImage` per picture. Apollo's `execute()` is an
    abstract input; the model starts from the response's `data`. */
module SpaceXApi {
  import opened Optional

  /** The generated `Links` type: every field is nullable, and so are the
      entries of `flickr_images`. */
  datatype Links = Links(
    flickrImages: Option<seq<Option<string>>>,
    missionPatch: Option<string>,
    missionPatchSmall: Option<string>)

  /** The generated `Launch` type. */
  datatype Launch = Launch(
    id: Option<string>,
    missionName: Option<string>,
    launchDateUtc: Option<string>,
    details: Option<string>,
    links: Option<Links>)

  /** The query's `data`: a nullable list of nullable launches. */
  datatype Data = Data(launches: Option<seq<Option<Launch>>>)

  datatype LaunchImage = LaunchImage(
    id: string,
    imageUrl: string,
    missionName: string,
    launchDate: string,
    details: string)

  const UnknownMission: string := "Unknown Mission"

  predicate IsDigit(c: char) {
    '0' <= c <= '9'
  }

  /** The character of one decimal digit. */
  function DigitChar(d: nat): (c: char)
    requires d < 10
    ensures IsDigit(c) && c as int - '0' as int == d
  {
    ('0' as int + d) as char
  }

  /** The number a string of decimal digits spells, most significant first. */
  function DigitsValue(s: string): int {
    if s == [] then 0 else DigitsValue(s[..|s| - 1]) * 10 + (s[|s| - 1] as int - '0' as int)
  }

  /** Kotlin's `Int.toString()` for the non-negative list indices used here. */
  function Decimal(n: nat): (s: string)
    ensures |s| >= 1
    ensures forall i :: 0 <= i < |s| ==> IsDigit(s[i])
    ensures n >= 10 ==> |s| >= 2
    ensures s[0] == '0' <==> n == 0
  {
    if n < 10 then [DigitChar(n)] else Decimal(n / 10) + [DigitChar(n % 10)]
  }

  /** `Decimal(n)` spells `n` in base 10. */
  lemma {:induction false} DecimalValue(n: nat)
    ensures DigitsValue(Decimal(n)) == n
  {
    var s := Decimal(n);
    if n < 10 {
      assert s[..|s| - 1] == [];
    } else {
      DecimalValue(n / 10);
      assert s[..|s| - 1] == Decimal(n / 10);
      assert s[|s| - 1] as int - '0' as int == n % 10;
    }
  }

  /** Different indices print differently. */
  lemma {:induction false} DecimalInjective(a: nat, b: nat)
    requires Decimal(a) == Decimal(b)
    ensures a == b
  {
    DecimalValue(a);
    DecimalValue(b);
  }

  /** Kotlin's `filterNotNull()`: the non-null entries, in order. */
  function FilterNotNull(xs: seq<Option<string>>): (r: seq<string>)
    ensures |r| <= |xs|
    ensures forall x :: x in r <==> Some(x) in xs
    ensures r == [] <==> forall i :: 0 <= i < |xs| ==> xs[i].None?
  {
    if xs == [] then []
    else if xs[0].Some? then [xs[0].value] + FilterNotNull(xs[1..])
    else FilterNotNull(xs[1..])
  }

  /** A single entry survives exactly when it is not null. */
  lemma FilterNotNullSingleton(x: Option<string>)
    ensures FilterNotNull([x]) == if x.Some? then [x.value] else []
  {
    assert [x][1..] == [];
  }

  /** Filtering distributes over concatenation: the surviving entries keep
      their order and their multiplicity. With `FilterNotNullSingleton` this
      determines `FilterNotNull` on every list. */
  lemma {:induction false} FilterNotNullAppend(xs: seq<Option<string>>, ys: seq<Option<string>>)
    ensures FilterNotNull(xs + ys) == FilterNotNull(xs) + FilterNotNull(ys)
  {
    if xs == [] {
      assert xs + ys == ys;
    } else {
      assert (xs + ys)[0] == xs[0];
      assert (xs + ys)[1..] == xs[1..] + ys;
      FilterNotNullAppend(xs[1..], ys);
    }
  }

  /** `"${launch?.id}"`: Kotlin prints a null as "null". */
  function IdText(launch: Option<Launch>): (s: string)
    ensures launch.None? || launch.value.id.None? ==> s == "null"
    ensures launch.Some? && launch.value.id.Some? ==> s == launch.value.id.value
  {
    if launch.Some? && launch.value.id.Some? then launch.value.id.value else "null"
  }

  /** `launch?.mission_name ?: "Unknown Mission"`. */
  function MissionName(launch: Option<Launch>): (name: string)
    ensures (launch.None? || launch.value.missionName.None?) ==> name == UnknownMission
    ensures launch.Some? && launch.value.missionName.Some? ==> name == launch.value.missionName.value
  {
    if launch.Some? then launch.value.missionName.OrElse(UnknownMission) else UnknownMission
  }

  /** `launch?.launch_date_utc ?: ""`. */
  function LaunchDate(launch: Option<Launch>): (date: string)
    ensures (launch.None? || launch.value.launchDateUtc.None?) ==> date == ""
    ensures launch.Some? && launch.value.launchDateUtc.Some? ==> date == launch.value.launchDateUtc.value
  {
    if launch.Some? then launch.value.launchDateUtc.OrElse("") else ""
  }

  /** `launch?.details ?: ""`. */
  function Details(launch: Option<Launch>): (details: string)
    ensures (launch.None? || launch.value.details.None?) ==> details == ""
    ensures launch.Some? && launch.value.details.Some? ==> details == launch.value.details.value
  {
    if launch.Some? then launch.value.details.OrElse("") else ""
  }

  /** `launch?.links?.flickr_images?.filterNotNull() ?: emptyList()`. */
  function FlickrImages(launch: Option<Launch>): (urls: seq<string>)
    ensures launch.None? || launch.value.links.None? || launch.value.links.value.flickrImages.None? ==> urls == []
    ensures launch.Some? && launch.value.links.Some? && launch.value.links.value.flickrImages.Some? ==>
              urls == FilterNotNull(launch.value.links.value.flickrImages.value)
  {
    if launch.Some? && launch.value.links.Some? && launch.value.links.value.flickrImages.Some?
    then FilterNotNull(launch.value.links.value.flickrImages.value)
    else []
  }

  /** `launch?.links?.mission_patch ?: launch?.links?.mission_patch_small`. */
  function PatchUrl(launch: Option<Launch>): (url: Option<string>)
    ensures launch.None? || launch.value.links.None? ==> url.None?
    ensures launch.Some? && launch.value.links.Some? && launch.value.links.value.missionPatch.Some? ==>
              url == launch.value.links.value.missionPatch
    ensures launch.Some? && launch.value.links.Some? && launch.value.links.value.missionPatch.None? ==>
              url == launch.value.links.value.missionPatchSmall
  {
    if launch.Some? && launch.value.links.Some? then
      var links := launch.value.links.value;
      if links.missionPatch.Some? then links.missionPatch else links.missionPatchSmall
    else None
  }

  /** The images of one launch: its flickr pictures numbered from 0, else one
      picture of its mission patch, else nothing. Every image carries the
      launch's name, date and details. */
  function LaunchImages(launch: Option<Launch>): (r: seq<LaunchImage>)
    ensures var urls := FlickrImages(launch);
            urls != [] ==>
              |r| == |urls| &&
              forall j :: 0 <= j < |r| ==> r[j].id == IdText(launch) + "_" + Decimal(j) && r[j].imageUrl == urls[j]
    ensures FlickrImages(launch) == [] && PatchUrl(launch).Some? ==>
              |r| == 1 && r[0].id == IdText(launch) + "_patch" && r[0].imageUrl == PatchUrl(launch).value
    ensures FlickrImages(launch) == [] && PatchUrl(launch).None? ==> r == []
    ensures launch.None? ==> r == []
    ensures forall j :: 0 <= j < |r| ==>
              r[j].missionName == MissionName(launch) && r[j].launchDate == LaunchDate(launch) && r[j].details == Details(launch)
  {
    var name, date, details := MissionName(launch), LaunchDate(launch), Details(launch);
    var urls := FlickrImages(launch);
    if urls == [] then
      match PatchUrl(launch)
      case Some(url) => [LaunchImage(IdText(launch) + "_patch", url, name, date, details)]
      case None => []
    else
      seq(|urls|, j requires 0 <= j < |urls| => LaunchImage(IdText(launch) + "_" + Decimal(j), urls[j], name, date, details))
  }

  /** `flatMap` over the launch list: each launch's images, in launch order. */
  function FlatMap(launches: seq<Option<Launch>>): (r: seq<LaunchImage>)
    ensures launches == [] ==> r == []
    ensures launches != [] ==>
              |LaunchImages(launches[0])| <= |r| && r[..|LaunchImages(launches[0])|] == LaunchImages(launches[0])
  {
    if launches == [] then [] else LaunchImages(launches[0]) + FlatMap(launches[1..])
  }

  /** `getLaunches`: no data or no launch list gives the empty list. */
  function GetLaunches(data: Option<Data>): (r: seq<LaunchImage>)
    ensures data.None? || data.value.launches.None? ==> r == []
    ensures data.Some? && data.value.launches.Some? ==> r == FlatMap(data.value.launches.value)
  {
    if data.Some? && data.value.launches.Some? then FlatMap(data.value.launches.value) else []
  }

  /** A single launch flattens to exactly its own images. With `FlatMapAppend`
      this fixes `FlatMap` on every list. */
  lemma FlatMapSingleton(launch: Option<Launch>)
    ensures FlatMap([launch]) == LaunchImages(launch)
  {
    assert [launch][1..] == [];
  }

  /** Output order is launch order: the images of a concatenation of launch
      lists are the images of the first list followed by those of the second. */
  lemma {:induction false} FlatMapAppend(a: seq<Option<Launch>>, b: seq<Option<Launch>>)
    ensures FlatMap(a + b) == FlatMap(a) + FlatMap(b)
  {
    if a == [] {
      assert a + b == b;
    } else {
      assert (a + b)[1..] == a[1..] + b;
      FlatMapAppend(a[1..], b);
    }
  }

  /** Every image comes from one launch of the list and carries that launch's
      name, date and details. */
  lemma {:induction false} ImagesComeFromLaunches(launches: seq<Option<Launch>>, img: LaunchImage)
    requires img in FlatMap(launches)
    ensures exists i :: 0 <= i < |launches| && img in LaunchImages(launches[i]) &&
              img.missionName == MissionName(launches[i]) && img.launchDate == LaunchDate(launches[i]) &&
              img.details == Details(launches[i])
  {
    var first := LaunchImages(launches[0]);
    if img in first {
      var j :| 0 <= j < |first| && first[j] == img;
    } else {
      assert img in FlatMap(launches[1..]);
      ImagesComeFromLaunches(launches[1..], img);
      var i :| 0 <= i < |launches[1..]| && img in LaunchImages(launches[1..][i]) &&
               img.missionName == MissionName(launches[1..][i]) && img.launchDate == LaunchDate(launches[1..][i]) &&
               img.details == Details(launches[1..][i]);
      assert launches[1..][i] == launches[i + 1];
    }
  }

  /** No two images of one launch share an id. */
  lemma IdsDistinctWithinLaunch(launch: Option<Launch>, j: nat, k: nat)
    requires j < k < |LaunchImages(launch)|
    ensures LaunchImages(launch)[j].id != LaunchImages(launch)[k].id
  {
    var r := LaunchImages(launch);
    var prefix := IdText(launch) + "_";
    assert FlickrImages(launch) != [];
    if r[j].id == r[k].id {
      assert r[j].id == prefix + Decimal(j) && r[k].id == prefix + Decimal(k);
      assert (prefix + Decimal(j))[|prefix|..] == Decimal(j);
      assert (prefix + Decimal(k))[|prefix|..] == Decimal(k);
      DecimalInjective(j, k);
    }
  }

  /** Null flickr entries are dropped before the images are numbered. */
  lemma NullsDroppedBeforeNumbering(id: string, a: string, b: string)
    ensures var launch := Some(Launch(Some(id), None, None, None, Some(Links(Some([None, Some(a), None, Some(b)]), None, None))));
            var r := LaunchImages(launch);
            |r| == 2 && r[0].id == id + "_0" && r[0].imageUrl == a && r[1].id == id + "_1" && r[1].imageUrl == b
  {
    var launch := Some(Launch(Some(id), None, None, None, Some(Links(Some([None, Some(a), None, Some(b)]), None, None))));
    FilterTwoOfFour(a, b);
    TwoFlickrImages(launch, id, a, b);
  }

  lemma FilterTwoOfFour(a: string, b: string)
    ensures FilterNotNull([None, Some(a), None, Some(b)]) == [a, b]
  {
    FilterNullThen(a);
    FilterNullThen(b);
    FilterNotNullAppend([None, Some(a)], [None, Some(b)]);
    assert [None, Some(a)] + [None, Some(b)] == [None, Some(a), None, Some(b)];
  }

  lemma FilterNullThen(x: string)
    ensures FilterNotNull([None, Some(x)]) == [x]
  {
    FilterNotNullAppend([None], [Some(x)]);
    FilterNotNullSingleton(None);
    FilterNotNullSingleton(Some(x));
    assert [None] + [Some(x)] == [None, Some(x)];
  }

  lemma TwoFlickrImages(launch: Option<Launch>, id: string, a: string, b: string)
    requires FlickrImages(launch) == [a, b] && IdText(launch) == id
    ensures var r := LaunchImages(launch);
            |r| == 2 && r[0].id == id + "_0" && r[0].imageUrl == a && r[1].id == id + "_1" && r[1].imageUrl == b
  {
    assert Decimal(0) == "0" && Decimal(1) == "1";
  }
}
