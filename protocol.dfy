/**
 * The text protocol shared by the three networked sketches: a line is split at
 * its first separator into a property and a parameter, scan results are
 * comma-joined into one string, and the two credentials live in a string
 * key/value store whose missing keys read as "".
 */
module Protocol {

  datatype Option<T> = None | Some(value: T)

  /** A reply sent to one websocket client. */
  datatype Reply = Reply(client: nat, text: string)

  /** An inbound line after the split: the property-only form or the property+parameter form. */
  datatype Command = Property(name: string) | PropertyWith(name: string, param: string)

  /** Position of the first `c` in `s`, as `strchr` finds it. */
  function Find(s: string, c: char): (r: Option<nat>)
    ensures r.None? <==> c !in s
    ensures r.Some? ==> r.value < |s| && s[r.value] == c && c !in s[..r.value]
  {
    if |s| == 0 then None
    else if s[0] == c then Some(0)
    else match Find(s[1..], c)
      case None => None
      case Some(i) =>
        assert s[..i + 1] == [s[0]] + s[1..][..i];
        Some(i + 1)
  }

  /** The first separator after a separator-free prefix is found right after that prefix. */
  lemma FindAfterPrefix(a: string, b: string, c: char)
    requires c !in a
    ensures Find(a + [c] + b, c) == Some(|a|)
  {
    var s := a + [c] + b;
    assert s[|a|] == c;
    assert s[..|a|] == a;
  }

  /** payloadConvert's split of a line at its first `sep`. */
  function Parse(line: string, sep: char): (cmd: Command)
    ensures cmd.Property? <==> sep !in line
    ensures cmd.Property? ==> cmd.name == line
    ensures cmd.PropertyWith? ==> line == cmd.name + [sep] + cmd.param && sep !in cmd.name
  {
    match Find(line, sep)
    case None => Property(line)
    case Some(i) =>
      assert line == line[..i] + [sep] + line[i + 1..];
      PropertyWith(line[..i], line[i + 1..])
  }

  /** The line a client sends for a command. */
  function Render(cmd: Command, sep: char): (line: string)
    ensures cmd.Property? ==> |line| == |cmd.name|
    ensures cmd.PropertyWith? ==> |line| == |cmd.name| + 1 + |cmd.param| && line[|cmd.name|] == sep
    ensures line[..|cmd.name|] == cmd.name
  {
    match cmd
    case Property(n) => n
    case PropertyWith(n, p) => n + [sep] + p
  }

  /**
   * Splitting is the inverse of rendering whenever the property name holds no
   * separator: the parameter is the whole remainder, separators included.
   */
  lemma {:induction false} ParseRender(cmd: Command, sep: char)
    requires sep !in cmd.name
    ensures Parse(Render(cmd, sep), sep) == cmd
  {
    match cmd
    case Property(n) =>
    case PropertyWith(n, p) =>
      FindAfterPrefix(n, p, sep);
      var s := n + [sep] + p;
      assert s[..|n|] == n;
      assert s[|n| + 1..] == p;
  }

  /** Every line is the rendering of its own split, so no input is lost by the split. */
  lemma RenderParse(line: string, sep: char)
    ensures Render(Parse(line, sep), sep) == line
  {
  }

  /**
   * payloadConvert as written: finds the first `sep` in the receive buffer,
   * overwrites it with a NUL and hands the two halves on.
   */
  method PayloadConvert(payload: array<char>, sep: char) returns (cmd: Command)
    modifies payload
    ensures cmd == Parse(old(payload[..]), sep)
    ensures cmd.PropertyWith? ==> payload[..] == old(payload[..])[|cmd.name| := '\0']
    ensures cmd.Property? ==> payload[..] == old(payload[..])
  {
    var text := payload[..];
    var p := Find(text, sep);
    if p.Some? {
      payload[p.value] := '\0';
      cmd := PropertyWith(text[..p.value], text[p.value + 1..]);
    } else {
      cmd := Property(text);
    }
  }

  /** wifiScan's result: the network names joined with ",", no trailing comma, "" for none. */
  function Join(names: seq<string>): (r: string)
    ensures names == [] ==> r == ""
    ensures |names| == 1 ==> r == names[0]
  {
    if |names| == 0 then ""
    else if |names| == 1 then names[0]
    else names[0] + "," + Join(names[1..])
  }

  /** Appending one more name adds exactly one comma and that name at the end. */
  lemma {:induction false} JoinSnoc(names: seq<string>, x: string)
    requires names != []
    ensures Join(names + [x]) == Join(names) + "," + x
  {
    if |names| == 1 {
      assert names + [x] == [names[0], x];
      assert [names[0], x][1..] == [x];
    } else {
      assert (names + [x])[1..] == names[1..] + [x];
      JoinSnoc(names[1..], x);
    }
  }

  /** The string-building loop of wifiScan over the scan result. */
  method WifiScan(scan: seq<string>) returns (networks: string)
    ensures networks == Join(scan)
  {
    var wifiSize := |scan|;
    networks := "";
    if wifiSize == 0 { return ""; }
    var i := 0;
    while i < wifiSize
      invariant 0 <= i <= wifiSize
      invariant i == 0 ==> networks == ""
      invariant 0 < i < wifiSize ==> networks == Join(scan[..i]) + ","
      invariant i == wifiSize ==> networks == Join(scan)
    {
      if i == wifiSize - 1 {
        networks := networks + scan[i];
      } else {
        networks := networks + scan[i] + ",";
      }
      if i > 0 {
        JoinSnoc(scan[..i], scan[i]);
        assert scan[..i] + [scan[i]] == scan[..i + 1];
      } else {
        assert scan[..1] == [scan[0]];
      }
      assert i + 1 == wifiSize ==> scan[..i + 1] == scan;
      i := i + 1;
    }
  }

  /** The page's `split(",")`: all pieces between separators. */
  function SplitAll(s: string, sep: char): (parts: seq<string>)
    ensures |parts| >= 1
    ensures |parts| == 1 <==> sep !in s
    ensures forall k :: 0 <= k < |parts| ==> sep !in parts[k]
    decreases |s|
  {
    match Find(s, sep)
    case None => [s]
    case Some(i) => [s[..i]] + SplitAll(s[i + 1..], sep)
  }

  /** The joined scan list splits back into the scanned names when none holds a comma. */
  lemma {:induction false} SplitJoin(names: seq<string>)
    requires names != []
    requires forall k :: 0 <= k < |names| ==> ',' !in names[k]
    ensures SplitAll(Join(names), ',') == names
  {
    if |names| > 1 {
      var rest := Join(names[1..]);
      var s := names[0] + "," + rest;
      assert Join(names) == s;
      FindAfterPrefix(names[0], rest, ',');
      assert s[..|names[0]|] == names[0];
      assert s[|names[0]| + 1..] == rest;
      assert SplitAll(s, ',') == [names[0]] + SplitAll(rest, ',');
      assert forall k :: 0 <= k < |names[1..]| ==> ',' !in names[1..][k];
      SplitJoin(names[1..]);
      assert names == [names[0]] + names[1..];
    } else {
      assert Find(names[0], ',') == None;
    }
  }

  /** The WIFI reply "NETWORKS," + list reads back, on the page, as the tag followed by the names. */
  lemma {:induction false} NetworksReplySplits(names: seq<string>)
    requires names != []
    requires forall k :: 0 <= k < |names| ==> ',' !in names[k]
    ensures SplitAll("NETWORKS," + Join(names), ',') == ["NETWORKS"] + names
  {
    var tag := "NETWORKS";
    assert ',' !in tag;
    var tagged := [tag] + names;
    assert tagged[1..] == names;
    assert forall k :: 0 <= k < |tagged| ==> ',' !in tagged[k] by {
      forall k | 0 <= k < |tagged| ensures ',' !in tagged[k] {
        if k > 0 { assert tagged[k] == names[k - 1]; }
      }
    }
    assert Join(tagged) == tag + "," + Join(names);
    assert "NETWORKS," + Join(names) == tag + "," + Join(names);
    SplitJoin(tagged);
  }

  /** The "credentials" namespace of the flash store. */
  type Store = map<string, string>

  const SSID_KEY: string := "SSID"
  const PASSWORD_KEY: string := "PASSWORD"

  /** Preferences::getString(key, ""): a missing key reads as the default "". */
  function Get(store: Store, key: string): (v: string)
    ensures key !in store ==> v == ""
    ensures key in store ==> v == store[key]
  {
    if key in store then store[key] else ""
  }

  /** wifiCredentials: one putString into the credential namespace. */
  function Put(store: Store, key: string, value: string): (r: Store)
    ensures Get(r, key) == value
    ensures forall k :: k != key ==> Get(r, k) == Get(store, k)
    ensures r.Keys == store.Keys + {key}
  {
    store[key := value]
  }
}
