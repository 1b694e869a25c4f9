/** The admin dashboard (src/components/admin/AdminDashboard.tsx): the app
    list with its totals, adding and deleting apps, and signing out. */
module Dashboard {
  import opened Outcomes
  import opened Rows
  import opened Backend
  import opened Browser
  import Api
  import Supabase

  /** `apps.reduce((acc, app) => acc + app.downloads, acc)`, folded from the left. */
  function FoldDownloads(acc: int, apps: seq<App>): (total: int)
    ensures (forall i :: 0 <= i < |apps| ==> apps[i].downloads >= 0) ==> total >= acc
    decreases |apps|
  {
    if apps == [] then acc else FoldDownloads(acc + apps[0].downloads, apps[1..])
  }

  /** The sum of the download counts of a list. */
  function Sum(apps: seq<App>): int
  {
    if apps == [] then 0 else apps[0].downloads + Sum(apps[1..])
  }

  /** The left fold from `acc` adds the sum of the list to `acc`. */
  lemma {:induction false} FoldIsSum(acc: int, apps: seq<App>)
    ensures FoldDownloads(acc, apps) == acc + Sum(apps)
    decreases |apps|
  {
    if apps != [] {
      FoldIsSum(acc + apps[0].downloads, apps[1..]);
    }
  }

  /** The total of two lists together is the sum of their totals. */
  lemma {:induction false} SumAppend(a: seq<App>, b: seq<App>)
    ensures Sum(a + b) == Sum(a) + Sum(b)
  {
    if a == [] {
      assert a + b == b;
    } else {
      assert (a + b)[0] == a[0] && (a + b)[1..] == a[1..] + b;
      SumAppend(a[1..], b);
    }
  }

  /** Download counts that are never negative give a total that is not negative. */
  lemma {:induction false} SumNotNegative(apps: seq<App>)
    requires forall i :: 0 <= i < |apps| ==> apps[i].downloads >= 0
    ensures Sum(apps) >= 0
  {
    if apps != [] {
      SumNotNegative(apps[1..]);
    }
  }

  /** One more download of one app raises the total by exactly one. */
  lemma {:induction false} SumCountsOneDownload(apps: seq<App>, k: nat)
    requires k < |apps|
    ensures Sum(apps[k := apps[k].(downloads := apps[k].downloads + 1)]) == Sum(apps) + 1
  {
    var bumped := apps[k := apps[k].(downloads := apps[k].downloads + 1)];
    if k == 0 {
      assert bumped[1..] == apps[1..];
    } else {
      assert bumped[1..] == apps[1..][k - 1 := apps[k].(downloads := apps[k].downloads + 1)];
      SumCountsOneDownload(apps[1..], k - 1);
    }
  }

  class AdminDashboard {
    var apps: seq<App>
    var isAddDialogOpen: bool
    var isLoading: bool

    constructor ()
      ensures apps == [] && !isAddDialogOpen && !isLoading
      ensures TotalApps() == 0 && TotalDownloads() == 0
    {
      apps, isAddDialogOpen, isLoading := [], false, false;
    }

    /** The "Total Apps" card. */
    function TotalApps(): nat
      reads this
    {
      |apps|
    }

    /** The "Total Downloads" card: the sum of the download counts of the list. */
    function TotalDownloads(): (total: int)
      reads this
      ensures total == Sum(apps)
    {
      FoldIsSum(0, apps);
      FoldDownloads(0, apps)
    }

    /** `handleSignOut`: sign out, then drop the cached flag, then go to the
        login form. If the sign-out rejects, the later steps do not run. */
    method SignOut(window: Window, client: Client, answer: Answer<()>) returns (c: Completion<()>)
      modifies window, client
      ensures client.calls == old(client.calls) + [AuthSignOut]
      ensures client.sessionLive == (old(client.sessionLive) && !answer.Data?)
      ensures client.sessionUser == old(client.sessionUser)
      ensures answer.Raise? ==> c == Threw(answer.reason) && unchanged(window)
      ensures !answer.Raise? ==>
        c == Returned(()) && window.storage == old(window.storage) - {AuthKey}
        && window.GetItem(AuthKey) == None && window.path == LoginPath
    {
      var signedOut := Api.SignOut(client, answer);
      if signedOut.Threw? {
        return signedOut;
      }
      window.RemoveItem(AuthKey);
      window.Navigate(LoginPath);
      c := Returned(());
    }

    /** The add dialog's `onOpenChange`. */
    method SetAddDialogOpen(open: bool)
      modifies this`isAddDialogOpen
      ensures isAddDialogOpen == open
    {
      isAddDialogOpen := open;
    }

    /** `loadApps`: the list becomes the fetched list; a failed fetch is caught
        and leaves the list as it was. */
    method LoadApps(client: Client, answer: Answer<seq<AppRow>>)
      modifies this`apps, client`calls
      ensures client.calls == old(client.calls) + [SelectAllApps]
      ensures apps == if answer.Data? then ToApps(answer.value) else old(apps)
    {
      var fetched := Api.GetApps(client, answer);
      if fetched.Returned? {
        apps := fetched.value;
      }
    }

    /** `handleAddApp`: add the app, reload the list and close the dialog. A
        failed add is caught: no reload, the list and the dialog stay as they
        were. The form is never left busy. */
    method AddApp(client: Client, name: string, version: string, description: string,
                  icon: Supabase.File, apk: Supabase.File, iconPrefix: string, apkPrefix: string,
                  iconAnswer: Answer<()>, apkAnswer: Answer<()>, insertAnswer: Answer<AppRow>,
                  reloadAnswer: Answer<seq<AppRow>>, urlOf: (string, string) -> string)
      modifies this`apps, this`isAddDialogOpen, this`isLoading, client`calls
      ensures !isLoading
      // the requests sent: those of `Api.AddApp`, then a reload only after a successful insert
      ensures
        var iconName, apkName := Supabase.StorageName(iconPrefix, icon.name), Supabase.StorageName(apkPrefix, apk.name);
        var uploads := [StorageUpload(Api.IconBucket, iconName), StorageUpload(Api.ApkBucket, apkName)];
        var record := AppInsert(name, version, description, urlOf(Api.IconBucket, iconName), urlOf(Api.ApkBucket, apkName), 0);
        && (!iconAnswer.Data? ==> client.calls == old(client.calls) + uploads[..1])
        && (iconAnswer.Data? && !apkAnswer.Data? ==> client.calls == old(client.calls) + uploads)
        && (iconAnswer.Data? && apkAnswer.Data? && !insertAnswer.Data? ==>
              client.calls == old(client.calls) + uploads + [InsertApp(record)])
        && (iconAnswer.Data? && apkAnswer.Data? && insertAnswer.Data? ==>
              client.calls == old(client.calls) + uploads + [InsertApp(record), SelectAllApps])
      ensures iconAnswer.Data? && apkAnswer.Data? && insertAnswer.Data? ==>
        !isAddDialogOpen && apps == if reloadAnswer.Data? then ToApps(reloadAnswer.value) else old(apps)
      ensures !(iconAnswer.Data? && apkAnswer.Data? && insertAnswer.Data?) ==>
        isAddDialogOpen == old(isAddDialogOpen) && apps == old(apps)
    {
      isLoading := true;
      var added := Api.AddApp(client, name, version, description, icon, apk, iconPrefix, apkPrefix,
                              iconAnswer, apkAnswer, insertAnswer, urlOf);
      if added.Returned? {
        LoadApps(client, reloadAnswer);
        isAddDialogOpen := false;
      }
      isLoading := false;
    }

    /** `handleDeleteApp(id)`: delete, then reload the list; a failed delete is
        caught and leaves the list as it was. */
    method DeleteApp(client: Client, id: string, answer: Answer<()>, reloadAnswer: Answer<seq<AppRow>>)
      modifies this`apps, client`calls
      ensures answer.Data? ==>
        client.calls == old(client.calls) + [Backend.DeleteApp(id), SelectAllApps]
        && apps == if reloadAnswer.Data? then ToApps(reloadAnswer.value) else old(apps)
      ensures !answer.Data? ==>
        client.calls == old(client.calls) + [Backend.DeleteApp(id)] && apps == old(apps)
    {
      var deleted := Api.DeleteApp(client, id, answer);
      if deleted.Returned? {
        LoadApps(client, reloadAnswer);
      }
    }
  }
}
