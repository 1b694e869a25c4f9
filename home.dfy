/** The public catalog page (src/components/home.tsx): load, search and install. */
module Home {
  import opened Outcomes
  import opened Rows
  import opened Backend
  import Api

  /** The download the page starts: the anchor's `href` and `download` name. */
  datatype Download = Download(href: string, fileName: string)

  /** `k` is the position of the first app in `apps` with the given id. */
  predicate IsFirstMatch(apps: seq<App>, id: string, k: int)
  {
    0 <= k < |apps| && apps[k].id == id && forall j :: 0 <= j < k ==> apps[j].id != id
  }

  /** The index of the first app with the given id, if any. */
  function FirstIndexOf(apps: seq<App>, id: string): (r: Option<nat>)
    ensures r.None? <==> forall i :: 0 <= i < |apps| ==> apps[i].id != id
    ensures r.Some? ==> IsFirstMatch(apps, id, r.value)
  {
    if apps == [] then None
    else if apps[0].id == id then Some(0)
    else
      match FirstIndexOf(apps[1..], id)
      case None => None
      case Some(k) => Some(k + 1)
  }

  /** `apps.find((a) => a.id === appId)`. */
  function Find(apps: seq<App>, id: string): (r: Option<App>)
    ensures r.None? <==> forall i :: 0 <= i < |apps| ==> apps[i].id != id
    ensures r.Some? ==> exists k :: IsFirstMatch(apps, id, k) && r.value == apps[k]
  {
    match FirstIndexOf(apps, id)
    case None => None
    case Some(k) => Some(apps[k])
  }

  /** `if (app?.apkUrl)`: a found app with a non-empty package URL is downloaded
      under its name followed by ".apk". */
  function DownloadFor(found: Option<App>): (r: Option<Download>)
    ensures r.Some? <==> found.Some? && found.value.apkUrl != ""
    ensures r.Some? ==>
      r.value.href == found.value.apkUrl
      && |r.value.fileName| > |found.value.name| && r.value.fileName[..|found.value.name|] == found.value.name
  {
    if found.Some? && found.value.apkUrl != "" then
      Some(Download(found.value.apkUrl, found.value.name + ".apk"))
    else None
  }

  /** An install downloads the first listed app with the id, from its package URL,
      under its name with ".apk"; it downloads nothing when no app has the id or
      the first one has no package URL. */
  lemma InstallDownloadsFirstMatch(apps: seq<App>, id: string)
    ensures var d := DownloadFor(Find(apps, id));
      d.Some? ==>
        (exists k :: IsFirstMatch(apps, id, k)
          && d.value.href == apps[k].apkUrl != "" && d.value.fileName == apps[k].name + ".apk")
    ensures var d := DownloadFor(Find(apps, id));
      d.None? <==>
        ((forall i :: 0 <= i < |apps| ==> apps[i].id != id)
          || (exists k :: IsFirstMatch(apps, id, k) && apps[k].apkUrl == ""))
  {
    var first := FirstIndexOf(apps, id);
    if first.Some? {
      assert IsFirstMatch(apps, id, first.value);
    }
  }

  /** The download file name always ends in ".apk". */
  lemma DownloadNameEndsInApk(found: Option<App>)
    ensures var d := DownloadFor(found);
      d.Some? ==> |d.value.fileName| >= 4 && d.value.fileName[|d.value.fileName| - 4..] == ".apk"
  {
    if found.Some? && found.value.apkUrl != "" {
      var name := found.value.name;
      assert (name + ".apk")[|name|..] == ".apk";
    }
  }

  class HomePage {
    var apps: seq<App>

    constructor ()
      ensures apps == []
    {
      apps := [];
    }

    /** `loadApps`: the list becomes exactly the fetched list; a failed fetch
        is not caught, so the promise rejects and the list stays. */
    method LoadApps(client: Client, answer: Answer<seq<AppRow>>) returns (c: Completion<()>)
      modifies this`apps, client`calls
      ensures client.calls == old(client.calls) + [SelectAllApps]
      ensures answer.Data? ==> c == Returned(()) && apps == ToApps(answer.value)
      ensures !answer.Data? ==> c == Threw(Reason(answer)) && apps == old(apps)
    {
      var fetched := Api.GetApps(client, answer);
      if fetched.Threw? {
        return Threw(fetched.reason);
      }
      apps := fetched.value;
      c := Returned(());
    }

    /** `handleSearch(query)`: the list becomes exactly the search results; a
        failed search rejects and the list stays. */
    method Search(client: Client, query: string, answer: Answer<seq<AppRow>>) returns (c: Completion<()>)
      modifies this`apps, client`calls
      ensures client.calls == old(client.calls) + [SelectMatchingApps(query)]
      ensures answer.Data? ==> c == Returned(()) && apps == ToApps(answer.value)
      ensures !answer.Data? ==> c == Threw(Reason(answer)) && apps == old(apps)
    {
      var results := Api.SearchApps(client, query, answer);
      if results.Threw? {
        return Threw(results.reason);
      }
      apps := results.value;
      c := Returned(());
    }

    /** `handleInstall(appId)`: count the download first, then look the app up
        in the current list and download it. A failed count rejects before any
        lookup or download. */
    method Install(client: Client, appId: string, answer: Answer<()>) returns (c: Completion<Option<Download>>)
      modifies client`calls
      ensures client.calls == old(client.calls) + [IncrementDownloads(appId)]
      ensures answer.Data? ==> c == Returned(DownloadFor(Find(apps, appId)))
      ensures !answer.Data? ==> c == Threw(Reason(answer))
    {
      var counted := Api.IncrementDownload(client, appId, answer);
      if counted.Threw? {
        return Threw(counted.reason);
      }
      var app := Find(apps, appId);
      c := Returned(DownloadFor(app));
    }
  }
}
