/** The reading of `adb devices` output in `check_adb_connection`. */
module Devices {
  import opened Wrappers
  import opened Text
  import opened World

  /** A line that counts as a connected device: not blank and mentioning `device`. */
  predicate Listed(line: string) {
    Strip(line) != "" && Contains(line, "device")
  }

  function Keep(lines: seq<string>): seq<string> {
    if lines == [] then []
    else (if Listed(lines[0]) then [lines[0]] else []) + Keep(lines[1..])
  }

  /** The lines after the header, of the stripped output, that name a device. */
  function ConnectedDevices(out: string): seq<string> {
    Keep(SplitOn(Strip(out), '\n')[1..])
  }

  /** Whether a requested serial occurs, as a substring, in one of the device lines. */
  predicate SerialListed(devices: seq<string>, serial: string) {
    exists i :: 0 <= i < |devices| && Contains(devices[i], serial)
  }

  /** `check_adb_connection`'s verdict on the reply to `adb devices`. */
  predicate AdbConnected(r: Reply, serial: Option<string>) {
    && r.Done? && r.code == 0
    && ConnectedDevices(r.out) != []
    && (serial.Some? && serial.value != "" ==> SerialListed(ConnectedDevices(r.out), serial.value))
  }

  /** The filter keeps exactly the listed lines, in their original order. */
  lemma {:induction false} KeepExact(lines: seq<string>)
    ensures forall x :: x in Keep(lines) <==> x in lines && Listed(x)
    ensures |Keep(lines)| <= |lines|
  {
    if lines != [] {
      KeepExact(lines[1..]);
      assert forall x :: x in lines <==> x == lines[0] || x in lines[1..];
    }
  }

  lemma KeepNonEmpty(lines: seq<string>)
    ensures Keep(lines) != [] <==> exists line :: line in lines && Listed(line)
  {
    KeepExact(lines);
    var ds := Keep(lines);
    if ds != [] {
      assert ds[0] in ds;
    }
  }

  lemma KeepSerial(lines: seq<string>, serial: string)
    ensures SerialListed(Keep(lines), serial) <==>
      exists line :: line in lines && Listed(line) && Contains(line, serial)
  {
    KeepExact(lines);
    var ds := Keep(lines);
    if SerialListed(ds, serial) {
      var i :| 0 <= i < |ds| && Contains(ds[i], serial);
      assert ds[i] in ds;
    }
    if exists line :: line in lines && Listed(line) && Contains(line, serial) {
      var line :| line in lines && Listed(line) && Contains(line, serial);
      assert line in ds;
      var i :| 0 <= i < |ds| && ds[i] == line;
    }
  }

  /**
   * The connection check passes exactly when adb succeeded, some line after
   * the header names a device and, when a serial was asked for, such a
   * line contains it.
   */
  lemma AdbConnectedMeans(r: Reply, serial: Option<string>)
    ensures r.TimedOut? ==> !AdbConnected(r, serial)
    ensures r.Done? ==> var lines := SplitOn(Strip(r.out), '\n')[1..];
      AdbConnected(r, serial) <==>
        && r.code == 0
        && (exists line :: line in lines && Listed(line))
        && (serial.Some? && serial.value != "" ==>
              exists line :: line in lines && Listed(line) && Contains(line, serial.value))
  {
    if r.Done? {
      var lines := SplitOn(Strip(r.out), '\n')[1..];
      KeepNonEmpty(lines);
      if serial.Some? {
        KeepSerial(lines, serial.value);
      }
    }
  }
}
