/** The renderer's Launch button for one dapp. It sends at most one
    `dapp:run` request at a time, tagged with a fresh correlation id, and
    acts only on the `dapp:launched` reply that carries that id. The React
    state hooks are the object's fields; the IPC channel is an outbox of sent
    requests and a method per received reply. */
module LauncherButton {
  import opened Wrappers

  /** The `dapp:run` message. The button never sets `shouldReset`. */
  datatype RunRequest = RunRequest(corrId: string, dappUid: string, shouldReset: Option<bool>)

  /** The `dapp:launched` message. */
  datatype LaunchedResult =
    | LaunchSucceeded(corrId: string, dappUrl: string)
    | LaunchFailed(corrId: string, error: string)

  class DappLauncherButton {
    const dappUid: string
    var runCorrId: Option<string>
    var runError: string
    var isBuilding: bool
    var dappUrl: string
    /** Every `dapp:run` request sent so far, oldest first. */
    var outbox: seq<RunRequest>

    /** Every request is for this button's dapp, and a stored correlation id
        is that of the last request sent, whose reply is still awaited. */
    ghost predicate Valid()
      reads this
    {
      && (forall i :: 0 <= i < |outbox| ==> outbox[i] == RunRequest(outbox[i].corrId, dappUid, None))
      && (runCorrId.Some? ==> isBuilding && |outbox| > 0 && outbox[|outbox| - 1].corrId == runCorrId.value)
    }

    constructor (dappUid: string)
      ensures Valid()
      ensures this.dappUid == dappUid && runCorrId == None && runError == ""
      ensures !isBuilding && dappUrl == "" && outbox == []
    {
      this.dappUid := dappUid;
      runCorrId := None;
      runError := "";
      isBuilding := false;
      dappUrl := "";
      outbox := [];
    }

    /** `isRunning = !!dappUrl` */
    predicate IsRunning()
      reads this
    {
      dappUrl != ""
    }

    /** The Launch button's `disabled` attribute. */
    predicate LaunchDisabled()
      reads this
    {
      isBuilding || IsRunning()
    }

    /** `if (corrId)`: a stored id counts only when it is a non-empty string. */
    predicate Pending()
      reads this
    {
      runCorrId.Some? && runCorrId.value != ""
    }

    /** `runDapp`, with `freshCorrId` standing for `crypto.randomUUID()`. With
        an id pending nothing changes and nothing is sent. Otherwise the fresh
        id is stored, the button shows it is building, and exactly one request
        carrying that id and this dapp's uid is sent. */
    method RunDapp(freshCorrId: string)
      requires Valid()
      modifies this
      ensures Valid()
      ensures old(Pending()) ==> unchanged(this)
      ensures !old(Pending()) ==>
        && runCorrId == Some(freshCorrId) && isBuilding
        && outbox == old(outbox) + [RunRequest(freshCorrId, dappUid, None)]
        && runError == old(runError) && dappUrl == old(dappUrl)
    {
      if Pending() {
        return;
      }
      isBuilding := true;
      outbox := outbox + [RunRequest(freshCorrId, dappUid, None)];
      runCorrId := Some(freshCorrId);
    }

    /** The `dapp:launched` handler. A reply for another id, or any reply
        while no id is stored, changes nothing. A matching reply always clears
        the stored id; a failure records its error and leaves the button
        building (so still disabled); a success stops building and records
        the URL. Nothing is ever sent. */
    method OnLaunched(result: LaunchedResult)
      requires Valid()
      modifies this
      ensures Valid()
      ensures Some(result.corrId) != old(runCorrId) ==> unchanged(this)
      ensures Some(result.corrId) == old(runCorrId) ==>
        && runCorrId == None && outbox == old(outbox)
        && match result
           case LaunchFailed(_, error) =>
             runError == error && isBuilding == old(isBuilding) && dappUrl == old(dappUrl) && LaunchDisabled()
           case LaunchSucceeded(_, url) =>
             !isBuilding && dappUrl == url && runError == old(runError)
    {
      if Some(result.corrId) != runCorrId {
        return;
      }
      runCorrId := None;
      match result
      case LaunchFailed(_, error) =>
        runError := error;
      case LaunchSucceeded(_, url) =>
        isBuilding := false;
        dappUrl := url;
    }
  }

  /** A run of the button: a second click while the first request is pending
      sends nothing, a reply for another id is ignored, and the matching
      success leaves the dapp running with the button disabled. */
  method LaunchScenario(uid: string, url: string)
    requires url != ""
  {
    var button := new DappLauncherButton(uid);
    assert !button.LaunchDisabled();
    button.RunDapp("id-1");
    assert button.outbox == [RunRequest("id-1", uid, None)];
    assert button.LaunchDisabled();
    button.RunDapp("id-2");
    assert |button.outbox| == 1;
    button.OnLaunched(LaunchSucceeded("id-2", url));
    assert button.runCorrId == Some("id-1");
    button.OnLaunched(LaunchSucceeded("id-1", url));
    assert button.IsRunning() && !button.isBuilding && button.runCorrId == None;
    assert button.LaunchDisabled();
  }
}
