/**
 * The Kettle_Without sketch: at boot it decides between access-point setup
 * and joining the stored network, reports a failed join once through the
 * loop, and serves the websocket protocol that stores the credentials.
 * The join result and the scan list are inputs; replies and serial output
 * are recorded.
 */
module KettleWithout {
  import opened Protocol

  /** The handler registered for "/". */
  datatype Page = SetupPage | HomePage

  const MSG_JOIN_FAILED: string := "Credentials not found!"
  const NAME_SAVED: string := "Access Point Name Saved"
  const PASSWORD_SAVED: string := "Access Point Password Saved"

  /** The sketch's globals together with what it has sent and printed. */
  datatype Device = Device(
    store: Store,
    wifiErrorMessage: string,
    networksDetected: string,
    page: Option<Page>,
    replies: seq<Reply>,
    serial: seq<string>,
    restarting: bool)

  function Fresh(store: Store): Device
  {
    Device(store, "", "", None, [], [], false)
  }

  /** WiFiSetupHandle: scan, open the access point, serve the setup page. */
  function SetupStep(d: Device, scan: seq<string>): (r: Device)
    ensures r.page == Some(SetupPage) && r.networksDetected == Join(scan)
    ensures r.store == d.store && r.wifiErrorMessage == d.wifiErrorMessage
    ensures r.replies == d.replies && r.serial == d.serial && r.restarting == d.restarting
  {
    d.(networksDetected := Join(scan), page := Some(SetupPage))
  }

  /** WiFiCredentialCheck: a rejected join records the error and falls back to setup. */
  function CredentialCheckStep(d: Device, joinAccepted: bool, scan: seq<string>): (r: Device)
    ensures r.page == Some(HomePage) <==> joinAccepted
    ensures r.page == Some(SetupPage) <==> !joinAccepted
    ensures !joinAccepted ==> r.wifiErrorMessage == MSG_JOIN_FAILED && r.networksDetected == Join(scan)
    ensures joinAccepted ==> r.wifiErrorMessage == d.wifiErrorMessage && r.networksDetected == d.networksDetected
    ensures r.store == d.store && r.replies == d.replies && r.serial == d.serial
  {
    if !joinAccepted then SetupStep(d.(wifiErrorMessage := MSG_JOIN_FAILED), scan)
    else d.(page := Some(HomePage))
  }

  /** setup(): an empty stored SSID means setup mode, otherwise try the stored network. */
  function Boot(store: Store, joinAccepted: bool, scan: seq<string>): (r: Device)
    ensures r.page.Some?
    ensures r.store == store && r.replies == [] && r.serial == [] && !r.restarting
    ensures Get(store, SSID_KEY) == "" ==> r.page == Some(SetupPage) && r.wifiErrorMessage == ""
  {
    if Get(store, SSID_KEY) == "" then SetupStep(Fresh(store), scan)
    else CredentialCheckStep(Fresh(store), joinAccepted, scan)
  }

  /** loop(): a pending error message is printed and cleared. */
  function LoopStep(d: Device): (r: Device)
    ensures r.wifiErrorMessage == ""
    ensures d.serial <= r.serial && |r.serial| <= |d.serial| + 1
    ensures r == d.(serial := r.serial, wifiErrorMessage := "")
  {
    if d.wifiErrorMessage != "" then d.(serial := d.serial + [d.wifiErrorMessage], wifiErrorMessage := "")
    else d
  }

  /** doTheThing: WIFI and RESET; any other property does nothing. */
  function PropertyStep(d: Device, property: string, client: nat): (r: Device)
    ensures r.page == d.page && r.networksDetected == d.networksDetected
    ensures r.wifiErrorMessage == d.wifiErrorMessage && r.serial == d.serial
    ensures r.store != d.store ==> property == "RESET"
    ensures r.restarting == (d.restarting || property == "RESET")
    ensures d.replies <= r.replies && |r.replies| <= |d.replies| + 1
    ensures r.replies != d.replies <==> property == "WIFI"
  {
    if property == "WIFI" then
      d.(replies := d.replies + [Reply(client, "NETWORKS," + d.networksDetected)])
    else if property == "RESET" then
      d.(store := Put(Put(map[], SSID_KEY, ""), PASSWORD_KEY, ""), restarting := true)
    else d
  }

  /** doTheThingWith: the two credential commands; anything else is only logged. */
  function PropertyWithStep(d: Device, property: string, param: string, client: nat): (r: Device)
    ensures r.page == d.page && r.networksDetected == d.networksDetected
    ensures r.wifiErrorMessage == d.wifiErrorMessage
    ensures forall k :: k != SSID_KEY && k != PASSWORD_KEY ==> Get(r.store, k) == Get(d.store, k)
    ensures r.restarting == (d.restarting || property == "AccessPointPassword")
    ensures d.replies <= r.replies && d.serial <= r.serial
    ensures |r.replies| + |r.serial| == |d.replies| + |d.serial| + 1
  {
    if property == "AccessPointName" then
      d.(store := Put(d.store, SSID_KEY, param), replies := d.replies + [Reply(client, NAME_SAVED)])
    else if property == "AccessPointPassword" then
      d.(store := Put(d.store, PASSWORD_KEY, param), replies := d.replies + [Reply(client, PASSWORD_SAVED)],
         restarting := true)
    else
      d.(serial := d.serial + ["Property: " + property + " | Param: " + param + " "])
  }

  /** A text frame: split at the first comma, then one of the two dispatchers. */
  function TextStep(d: Device, payload: string, client: nat): (r: Device)
    ensures r.page == d.page && r.networksDetected == d.networksDetected
    ensures r.wifiErrorMessage == d.wifiErrorMessage
    ensures d.replies <= r.replies && d.serial <= r.serial
    ensures |r.replies| <= |d.replies| + 1
  {
    match Parse(payload, ',')
    case Property(p) => PropertyStep(d, p, client)
    case PropertyWith(p, q) => PropertyWithStep(d, p, q, client)
  }

  /** The boot decision: the home page is served only for a stored SSID and an accepted join. */
  lemma BootDecision(store: Store, joinAccepted: bool, scan: seq<string>)
    ensures var d := Boot(store, joinAccepted, scan);
      && (d.page == Some(HomePage) <==> Get(store, SSID_KEY) != "" && joinAccepted)
      && (d.page == Some(SetupPage) <==> Get(store, SSID_KEY) == "" || !joinAccepted)
      && (d.wifiErrorMessage == MSG_JOIN_FAILED <==> Get(store, SSID_KEY) != "" && !joinAccepted)
      && d.networksDetected == (if d.page == Some(SetupPage) then Join(scan) else "")
      && d.store == store && d.replies == [] && !d.restarting
  {
  }

  /** A failed join is printed by the first loop pass and never again. */
  lemma JoinErrorReportedOnce(store: Store, scan: seq<string>)
    requires Get(store, SSID_KEY) != ""
    ensures var d1 := LoopStep(Boot(store, false, scan));
      && d1.serial == [MSG_JOIN_FAILED]
      && d1.wifiErrorMessage == ""
      && LoopStep(d1) == d1
  {
  }

  /** The loop's error drain settles after one pass, and prints at most the pending message. */
  lemma LoopDrainsOnce(d: Device)
    ensures LoopStep(LoopStep(d)) == LoopStep(d)
    ensures LoopStep(d).wifiErrorMessage == ""
    ensures LoopStep(d).serial == d.serial + (if d.wifiErrorMessage == "" then [] else [d.wifiErrorMessage])
  {
  }

  /** `AccessPointName,X` stores X (commas included) as SSID, replies, and touches no other key. */
  lemma NameCommand(d: Device, x: string, client: nat)
    ensures var d' := TextStep(d, "AccessPointName," + x, client);
      && Get(d'.store, SSID_KEY) == x
      && (forall k :: k != SSID_KEY ==> Get(d'.store, k) == Get(d.store, k))
      && d'.replies == d.replies + [Reply(client, NAME_SAVED)]
      && d'.restarting == d.restarting && d'.serial == d.serial
  {
    assert "AccessPointName," + x == Render(PropertyWith("AccessPointName", x), ',');
    ParseRender(PropertyWith("AccessPointName", x), ',');
  }

  /** `AccessPointPassword,Y` stores Y as PASSWORD, replies, touches no other key, then restarts. */
  lemma PasswordCommand(d: Device, y: string, client: nat)
    ensures var d' := TextStep(d, "AccessPointPassword," + y, client);
      && Get(d'.store, PASSWORD_KEY) == y
      && (forall k :: k != PASSWORD_KEY ==> Get(d'.store, k) == Get(d.store, k))
      && d'.replies == d.replies + [Reply(client, PASSWORD_SAVED)]
      && d'.restarting
  {
    assert "AccessPointPassword," + y == Render(PropertyWith("AccessPointPassword", y), ',');
    ParseRender(PropertyWith("AccessPointPassword", y), ',');
  }

  /** The page's connect button: name then password persist both before the restart, and the next boot joins. */
  lemma ProvisioningSequence(d: Device, name: string, password: string, client: nat, scan: seq<string>)
    requires name != ""
    ensures var d2 := TextStep(TextStep(d, "AccessPointName," + name, client),
                               "AccessPointPassword," + password, client);
      && Get(d2.store, SSID_KEY) == name
      && Get(d2.store, PASSWORD_KEY) == password
      && d2.restarting
      && Boot(d2.store, true, scan).page == Some(HomePage)
  {
    NameCommand(d, name, client);
    var d1 := TextStep(d, "AccessPointName," + name, client);
    PasswordCommand(d1, password, client);
  }

  /** RESET leaves exactly SSID = "" and PASSWORD = "", restarts, and the next boot is setup mode. */
  lemma ResetCommand(d: Device, client: nat, joinAccepted: bool, scan: seq<string>)
    ensures var d' := TextStep(d, "RESET", client);
      && d'.store == map[SSID_KEY := "", PASSWORD_KEY := ""]
      && d'.restarting
      && d'.replies == d.replies
      && Boot(d'.store, joinAccepted, scan).page == Some(SetupPage)
  {
    assert ',' !in "RESET";
  }

  /** WIFI replies with the list found by the boot-time scan, after the tag. */
  lemma WifiCommand(d: Device, client: nat)
    ensures TextStep(d, "WIFI", client)
         == d.(replies := d.replies + [Reply(client, "NETWORKS," + d.networksDetected)])
  {
    assert ',' !in "WIFI";
  }

  /**
   * Unrecognised commands never touch the store, the restart flag or the
   * replies: property-only ones (SWITCH among them) change nothing at all,
   * property+parameter ones only print.
   */
  lemma UnrecognisedCommand(d: Device, payload: string, client: nat)
    requires Parse(payload, ',') !in {Property("WIFI"), Property("RESET")}
    requires Parse(payload, ',').PropertyWith? ==> Parse(payload, ',').name !in {"AccessPointName", "AccessPointPassword"}
    ensures var d' := TextStep(d, payload, client);
      && d'.store == d.store && d'.replies == d.replies && d'.restarting == d.restarting
      && d'.networksDetected == d.networksDetected && d'.wifiErrorMessage == d.wifiErrorMessage
      && (Parse(payload, ',').Property? ==> d' == d)
  {
  }

  lemma SwitchIgnored(d: Device, client: nat)
    ensures TextStep(d, "SWITCH", client) == d
  {
    assert ',' !in "SWITCH";
  }

  /** The sketch's globals, updated in place by setup, loop and the websocket handler. */
  class Sketch {
    var store: Store
    var wifiErrorMessage: string
    var networksDetected: string
    var page: Option<Page>
    var replies: seq<Reply>
    var serial: seq<string>
    var restarting: bool

    function Snapshot(): Device
      reads this
    {
      Device(store, wifiErrorMessage, networksDetected, page, replies, serial, restarting)
    }

    /** setup() over the stored credentials, the join result and the scan list. */
    constructor Setup(stored: Store, joinAccepted: bool, scan: seq<string>)
      ensures Snapshot() == Boot(stored, joinAccepted, scan)
    {
      store, wifiErrorMessage, networksDetected, page := stored, "", "", None;
      replies, serial, restarting := [], [], false;
      new;
      var ssid := Get(store, SSID_KEY);
      if ssid == "" {
        WiFiSetupHandle(scan);
      } else {
        WiFiCredentialCheck(joinAccepted, scan);
      }
    }

    method WiFiSetupHandle(scan: seq<string>)
      modifies this
      ensures Snapshot() == SetupStep(old(Snapshot()), scan)
    {
      networksDetected := WifiScan(scan);
      page := Some(SetupPage);
    }

    method WiFiCredentialCheck(joinAccepted: bool, scan: seq<string>)
      modifies this
      ensures Snapshot() == CredentialCheckStep(old(Snapshot()), joinAccepted, scan)
    {
      if !joinAccepted {
        wifiErrorMessage := MSG_JOIN_FAILED;
        WiFiSetupHandle(scan);
      } else {
        page := Some(HomePage);
      }
    }

    method Loop()
      modifies this
      ensures Snapshot() == LoopStep(old(Snapshot()))
    {
      if wifiErrorMessage != "" { WiFiErrorHandle(); }
    }

    method WiFiErrorHandle()
      modifies this
      ensures serial == old(serial) + [old(wifiErrorMessage)] && wifiErrorMessage == ""
      ensures Snapshot() == old(Snapshot()).(serial := serial, wifiErrorMessage := "")
    {
      serial := serial + [wifiErrorMessage];
      wifiErrorMessage := "";
    }

    /** wifiCredentials: one write to the credential namespace. */
    method WifiCredentials(key: string, value: string)
      modifies this
      ensures store == Put(old(store), key, value)
      ensures Snapshot() == old(Snapshot()).(store := store)
    {
      store := store[key := value];
    }

    /** A WStype_TEXT event: payloadConvert on the receive buffer. */
    method OnText(client: nat, payload: string)
      modifies this
      ensures Snapshot() == TextStep(old(Snapshot()), payload, client)
    {
      var buffer := new char[|payload|](i requires 0 <= i < |payload| => payload[i]);
      assert buffer[..] == payload;
      var cmd := PayloadConvert(buffer, ',');
      match cmd
      case Property(p) => DoTheThing(p, client);
      case PropertyWith(p, q) => DoTheThingWith(p, q, client);
    }

    method DoTheThing(property: string, client: nat)
      modifies this
      ensures Snapshot() == PropertyStep(old(Snapshot()), property, client)
    {
      if property == "WIFI" {
        replies := replies + [Reply(client, "NETWORKS," + networksDetected)];
      } else if property == "RESET" {
        store := map[];
        WifiCredentials(SSID_KEY, "");
        WifiCredentials(PASSWORD_KEY, "");
        restarting := true;
      }
    }

    method DoTheThingWith(property: string, param: string, client: nat)
      modifies this
      ensures Snapshot() == PropertyWithStep(old(Snapshot()), property, param, client)
    {
      if property == "AccessPointName" {
        WifiCredentials(SSID_KEY, param);
        replies := replies + [Reply(client, NAME_SAVED)];
      } else if property == "AccessPointPassword" {
        WifiCredentials(PASSWORD_KEY, param);
        replies := replies + [Reply(client, PASSWORD_SAVED)];
        restarting := true;
      } else {
        serial := serial + ["Property: " + property + " | Param: " + param + " "];
      }
    }
  }
}
