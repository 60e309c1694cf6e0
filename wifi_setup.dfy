/**
 * The WiFi_Setup sketch: at boot it enters access-point setup unless both
 * credentials are stored, and otherwise starts joining the stored network
 * and serves the connected page whatever the join reports. Its websocket
 * protocol stores the credentials, lists the scanned networks and resets.
 */
module WiFiSetup {
  import opened Protocol

  /** The handler registered for "/". */
  datatype Page = StartupPage | ConnectedPage

  const NAME_SAVED: string := "Access Point Name Saved"
  const PASSWORD_SAVED: string := "Access Point Password Saved"

  /** The sketch's globals together with what it has sent and printed. */
  datatype Device = Device(
    store: Store,
    networksDetected: string,
    page: Option<Page>,
    replies: seq<Reply>,
    serial: seq<string>,
    restarting: bool)

  function Fresh(store: Store): Device
  {
    Device(store, "", None, [], [], false)
  }

  /** wifiSetup: scan, open the access point, serve the startup page. */
  function SetupStep(d: Device, scan: seq<string>): (r: Device)
    ensures r.page == Some(StartupPage) && r.networksDetected == Join(scan)
    ensures r.store == d.store && r.replies == d.replies && r.serial == d.serial
    ensures r.restarting == d.restarting
  {
    d.(networksDetected := Join(scan), page := Some(StartupPage))
  }

  /** connectToWifi: print what the join reports, then serve the connected page regardless. */
  function ConnectStep(d: Device, joinAccepted: bool): (r: Device)
    ensures r.page == Some(ConnectedPage)
    ensures r.serial == d.serial + [if joinAccepted then "Ready" else "Failed!"]
    ensures r.store == d.store && r.replies == d.replies && r.networksDetected == d.networksDetected
    ensures r.restarting == d.restarting
  {
    d.(serial := d.serial + [if joinAccepted then "Ready" else "Failed!"], page := Some(ConnectedPage))
  }

  /** setup(): setup mode when either credential is empty, otherwise connect. */
  function Boot(store: Store, joinAccepted: bool, scan: seq<string>): (r: Device)
    ensures r.page.Some?
    ensures r.store == store && r.replies == [] && !r.restarting && |r.serial| == 1
    ensures r.page == Some(ConnectedPage) ==> r.networksDetected == ""
  {
    var ssid := Get(store, SSID_KEY);
    var password := Get(store, PASSWORD_KEY);
    if ssid == "" || password == "" then
      SetupStep(Fresh(store).(serial := ["No WIFI Stored"]), scan)
    else ConnectStep(Fresh(store), joinAccepted)
  }

  /** doTheThing: WIFI and RESET; any other property does nothing. */
  function PropertyStep(d: Device, property: string, client: nat): (r: Device)
    ensures r.page == d.page && r.networksDetected == d.networksDetected && r.serial == d.serial
    ensures r.store != d.store ==> property == "RESET"
    ensures property == "RESET" ==> Get(r.store, SSID_KEY) == "" && Get(r.store, PASSWORD_KEY) == ""
    ensures r.restarting == (d.restarting || property == "RESET")
    ensures d.replies <= r.replies && |r.replies| <= |d.replies| + 1
    ensures r.replies != d.replies <==> property == "WIFI"
  {
    if property == "WIFI" then
      d.(replies := d.replies + [Reply(client, "NETWORKS," + d.networksDetected)])
    else if property == "RESET" then
      d.(store := map[], restarting := true)
    else d
  }

  /** doTheThingWith: the two credential commands; anything else is only logged. */
  function PropertyWithStep(d: Device, property: string, param: string, client: nat): (r: Device)
    ensures r.page == d.page && r.networksDetected == d.networksDetected
    ensures forall k :: k != SSID_KEY && k != PASSWORD_KEY ==> Get(r.store, k) == Get(d.store, k)
    ensures r.restarting == (d.restarting || property == "AccessPointPassword")
    ensures d.replies <= r.replies && d.serial <= r.serial
    ensures |r.replies| + |r.serial| == |d.replies| + |d.serial| + 1
  {
    if property == "AccessPointName" then
      d.(store := Put(d.store, SSID_KEY, param), replies := d.replies + [Reply(client, NAME_SAVED)])
    else if property == "AccessPointPassword" then
      d.(store := Put(d.store, PASSWORD_KEY, param), replies := d.replies + [Reply(client, PASSWORD_SAVED)],
         restarting := true)
    else
      d.(serial := d.serial + ["Property: " + property + " | Param: " + param + " "])
  }

  /** A text frame: split at the first comma, then one of the two dispatchers. */
  function TextStep(d: Device, payload: string, client: nat): (r: Device)
    ensures r.page == d.page && r.networksDetected == d.networksDetected
    ensures d.replies <= r.replies && d.serial <= r.serial
    ensures |r.replies| <= |d.replies| + 1
  {
    match Parse(payload, ',')
    case Property(p) => PropertyStep(d, p, client)
    case PropertyWith(p, q) => PropertyWithStep(d, p, q, client)
  }

  /**
   * The boot decision: setup mode exactly when a credential is missing or
   * empty; otherwise the connected page, whatever the join result, which is
   * only printed.
   */
  lemma BootDecision(store: Store, joinAccepted: bool, scan: seq<string>)
    ensures var d := Boot(store, joinAccepted, scan);
      && (d.page == Some(StartupPage) <==> Get(store, SSID_KEY) == "" || Get(store, PASSWORD_KEY) == "")
      && (d.page == Some(ConnectedPage) <==> Get(store, SSID_KEY) != "" && Get(store, PASSWORD_KEY) != "")
      && d.page == Boot(store, !joinAccepted, scan).page
      && d.networksDetected == (if d.page == Some(StartupPage) then Join(scan) else "")
      && d.store == store && d.replies == [] && !d.restarting
  {
  }

  /** `AccessPointName,X` stores X (commas included) as SSID, replies, and touches no other key. */
  lemma NameCommand(d: Device, x: string, client: nat)
    ensures var d' := TextStep(d, "AccessPointName," + x, client);
      && Get(d'.store, SSID_KEY) == x
      && (forall k :: k != SSID_KEY ==> Get(d'.store, k) == Get(d.store, k))
      && d'.replies == d.replies + [Reply(client, NAME_SAVED)]
      && d'.restarting == d.restarting && d'.serial == d.serial
  {
    assert "AccessPointName," + x == Render(PropertyWith("AccessPointName", x), ',');
    ParseRender(PropertyWith("AccessPointName", x), ',');
  }

  /** `AccessPointPassword,Y` stores Y as PASSWORD, replies, touches no other key, then restarts. */
  lemma PasswordCommand(d: Device, y: string, client: nat)
    ensures var d' := TextStep(d, "AccessPointPassword," + y, client);
      && Get(d'.store, PASSWORD_KEY) == y
      && (forall k :: k != PASSWORD_KEY ==> Get(d'.store, k) == Get(d.store, k))
      && d'.replies == d.replies + [Reply(client, PASSWORD_SAVED)]
      && d'.restarting
  {
    assert "AccessPointPassword," + y == Render(PropertyWith("AccessPointPassword", y), ',');
    ParseRender(PropertyWith("AccessPointPassword", y), ',');
  }

  /** Name then password persist both before the restart, and with both non-empty the next boot connects. */
  lemma ProvisioningSequence(d: Device, name: string, password: string, client: nat,
                             joinAccepted: bool, scan: seq<string>)
    requires name != "" && password != ""
    ensures var d2 := TextStep(TextStep(d, "AccessPointName," + name, client),
                               "AccessPointPassword," + password, client);
      && Get(d2.store, SSID_KEY) == name
      && Get(d2.store, PASSWORD_KEY) == password
      && d2.restarting
      && Boot(d2.store, joinAccepted, scan).page == Some(ConnectedPage)
  {
    NameCommand(d, name, client);
    var d1 := TextStep(d, "AccessPointName," + name, client);
    PasswordCommand(d1, password, client);
  }

  /** RESET clears the namespace and restarts; both keys then read "", so the next boot is setup mode. */
  lemma ResetCommand(d: Device, client: nat, joinAccepted: bool, scan: seq<string>)
    ensures var d' := TextStep(d, "RESET", client);
      && Get(d'.store, SSID_KEY) == "" && Get(d'.store, PASSWORD_KEY) == ""
      && d'.restarting
      && d'.replies == d.replies
      && Boot(d'.store, joinAccepted, scan).page == Some(StartupPage)
  {
    assert ',' !in "RESET";
  }

  /**
   * In setup mode (either credential empty) WIFI replies with the tag and the
   * boot-time scan list, and changes nothing else.
   */
  lemma WifiCommand(store: Store, joinAccepted: bool, scan: seq<string>, client: nat)
    requires Get(store, SSID_KEY) == "" || Get(store, PASSWORD_KEY) == ""
    ensures var d := Boot(store, joinAccepted, scan);
      TextStep(d, "WIFI", client) == d.(replies := [Reply(client, "NETWORKS," + Join(scan))])
  {
    assert ',' !in "WIFI";
  }

  /** Unrecognised commands: property-only ones change nothing, property+parameter ones only print. */
  lemma UnrecognisedCommand(d: Device, payload: string, client: nat)
    requires Parse(payload, ',') !in {Property("WIFI"), Property("RESET")}
    requires Parse(payload, ',').PropertyWith? ==> Parse(payload, ',').name !in {"AccessPointName", "AccessPointPassword"}
    ensures var d' := TextStep(d, payload, client);
      && d'.store == d.store && d'.replies == d.replies && d'.restarting == d.restarting
      && d'.networksDetected == d.networksDetected
      && (Parse(payload, ',').Property? ==> d' == d)
  {
  }

  /** The sketch's globals, updated in place by setup and the websocket handler. */
  class Sketch {
    var store: Store
    var networksDetected: string
    var page: Option<Page>
    var replies: seq<Reply>
    var serial: seq<string>
    var restarting: bool

    function Snapshot(): Device
      reads this
    {
      Device(store, networksDetected, page, replies, serial, restarting)
    }

    /** setup() over the stored credentials, the join result and the scan list. */
    constructor Setup(stored: Store, joinAccepted: bool, scan: seq<string>)
      ensures Snapshot() == Boot(stored, joinAccepted, scan)
    {
      store, networksDetected, page := stored, "", None;
      replies, serial, restarting := [], [], false;
      new;
      var ssid := Get(store, SSID_KEY);
      var password := Get(store, PASSWORD_KEY);
      if ssid == "" || password == "" {
        serial := serial + ["No WIFI Stored"];
        WifiSetup(scan);
      } else {
        ConnectToWifi(joinAccepted);
      }
    }

    method WifiSetup(scan: seq<string>)
      modifies this
      ensures Snapshot() == SetupStep(old(Snapshot()), scan)
    {
      networksDetected := WifiScan(scan);
      page := Some(StartupPage);
    }

    method ConnectToWifi(joinAccepted: bool)
      modifies this
      ensures Snapshot() == ConnectStep(old(Snapshot()), joinAccepted)
    {
      serial := serial + [if joinAccepted then "Ready" else "Failed!"];
      page := Some(ConnectedPage);
    }

    /** wifiCredentials: one write to the credential namespace. */
    method WifiCredentials(key: string, value: string)
      modifies this
      ensures store == Put(old(store), key, value)
      ensures Snapshot() == old(Snapshot()).(store := store)
    {
      store := store[key := value];
    }

    /** A WStype_TEXT event: payloadConvert on the receive buffer. */
    method OnText(client: nat, payload: string)
      modifies this
      ensures Snapshot() == TextStep(old(Snapshot()), payload, client)
    {
      var buffer := new char[|payload|](i requires 0 <= i < |payload| => payload[i]);
      assert buffer[..] == payload;
      var cmd := PayloadConvert(buffer, ',');
      match cmd
      case Property(p) => DoTheThing(p, client);
      case PropertyWith(p, q) => DoTheThingWith(p, q, client);
    }

    method DoTheThing(property: string, client: nat)
      modifies this
      ensures Snapshot() == PropertyStep(old(Snapshot()), property, client)
    {
      if property == "WIFI" {
        replies := replies + [Reply(client, "NETWORKS," + networksDetected)];
      } else if property == "RESET" {
        store := map[];
        restarting := true;
      }
    }

    method DoTheThingWith(property: string, param: string, client: nat)
      modifies this
      ensures Snapshot() == PropertyWithStep(old(Snapshot()), property, param, client)
    {
      if property == "AccessPointName" {
        WifiCredentials(SSID_KEY, param);
        replies := replies + [Reply(client, NAME_SAVED)];
      } else if property == "AccessPointPassword" {
        WifiCredentials(PASSWORD_KEY, param);
        replies := replies + [Reply(client, PASSWORD_SAVED)];
        restarting := true;
      } else {
        serial := serial + ["Property: " + property + " | Param: " + param + " "];
      }
    }
  }
}
