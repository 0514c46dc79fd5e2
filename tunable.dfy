/**
 * What usb_tunable and runtime_tunable share: the udev device they
 * wrap, the two control scripts built from its sysfs path, the
 * good/bad probe of power/control, the toggle, and the two catalogs the
 * discovery callbacks fill.
 */
module Tunables {
  import opened Wrappers
  import opened Text

  /** TUNE_GOOD, TUNE_BAD and TUNE_UNKNOWN. */
  datatype TuneState = Good | Bad | Unknown

  /** The sysfs attribute that switches runtime power management. */
  const ControlAttr: string := "power/control"

  /**
   * A udev device: its identity is fixed when it is opened, its sysfs
   * attributes can be read and written. An attribute missing from
   * `attrs` is one udev_device_get_sysattr_value returns NULL for.
   */
  class Device {
    const sysname: string
    const subsystem: string
    const syspath: string
    var attrs: map<string, string>

    constructor (sysname: string, subsystem: string, syspath: string, attrs: map<string, string>)
      ensures this.sysname == sysname && this.subsystem == subsystem && this.syspath == syspath
      ensures this.attrs == attrs
    {
      this.sysname := sysname;
      this.subsystem := subsystem;
      this.syspath := syspath;
      this.attrs := attrs;
    }
  }

  /** udev_device_get_sysattr_value: the attribute's text, or NULL. */
  function Attr(attrs: map<string, string>, key: string): (value: Option<string>)
    ensures value.Some? <==> key in attrs
    ensures value.Some? ==> value.value == attrs[key]
  {
    if key in attrs then Some(attrs[key]) else None
  }

  // ---------------------------------------------------------------------
  // Probe and toggle
  // ---------------------------------------------------------------------

  /** good_bad on the text of power/control: Good exactly for "auto", never Unknown. */
  function Probe(control: string): (state: TuneState)
    ensures state == Good <==> control == "auto"
    ensures state != Unknown
  {
    if control == "auto" then Good else Bad
  }

  /** The value toggle writes: "on" to leave the good state, "auto" to enter it. */
  function ToggleValue(state: TuneState): (value: string)
    ensures state == Good ==> Probe(value) == Bad
    ensures state != Good ==> Probe(value) == Good
  {
    if state == Good then "on" else "auto"
  }

  // ---------------------------------------------------------------------
  // The control scripts
  // ---------------------------------------------------------------------

  const GoodHead: string := "echo 'auto' > '"
  const BadHead: string := "echo 'on' > '"
  const ScriptTail: string := "/power/control';"

  /** "echo 'auto' > '%s/power/control';" */
  const GoodFormat: string := GoodHead + ("%s" + ScriptTail)
  /** "echo 'on' > '%s/power/control';" */
  const BadFormat: string := BadHead + ("%s" + ScriptTail)

  /** sprintf(toggle_good, "echo 'auto' > '%s/power/control';", path) writes the path between the head and the tail. */
  lemma GoodFormatPrints(path: string)
    ensures Holes(GoodFormat) == 1
    ensures Format(GoodFormat, [path]) == GoodHead + path + ScriptTail
  {
    Format1(GoodHead, path, ScriptTail);
  }

  /** sprintf(toggle_bad, "echo 'on' > '%s/power/control';", path) writes the path between the head and the tail. */
  lemma BadFormatPrints(path: string)
    ensures Holes(BadFormat) == 1
    ensures Format(BadFormat, [path]) == BadHead + path + ScriptTail
  {
    Format1(BadHead, path, ScriptTail);
  }

  /** toggle_good: the "auto" command for the device's path. */
  function GoodScript(path: string): (script: string)
    ensures script == GoodHead + path + ScriptTail
  {
    GoodFormatPrints(path);
    Format(GoodFormat, [path])
  }

  /** toggle_bad: the "on" command for the device's path. */
  function BadScript(path: string): (script: string)
    ensures script == BadHead + path + ScriptTail
  {
    BadFormatPrints(path);
    Format(BadFormat, [path])
  }

  /**
   * The write a control script stands for: echo `value` into
   * `path`/power/control. The path is read back as the text between the
   * quotes, without shell quoting rules.
   */
  datatype ControlWrite = ControlWrite(path: string, value: string)

  predicate HasPrefix(s: string, p: string) {
    |p| <= |s| && s[..|p|] == p
  }

  predicate HasSuffix(s: string, p: string) {
    |p| <= |s| && s[|s| - |p|..] == p
  }

  /** Reads a script of either shape back into the write it stands for. */
  function ScriptWrite(script: string): Option<ControlWrite> {
    if |script| < |GoodHead| + |ScriptTail| && |script| < |BadHead| + |ScriptTail| then None
    else if !HasSuffix(script, ScriptTail) then None
    else if |GoodHead| + |ScriptTail| <= |script| && HasPrefix(script, GoodHead) then
      Some(ControlWrite(script[|GoodHead|..|script| - |ScriptTail|], "auto"))
    else if |BadHead| + |ScriptTail| <= |script| && HasPrefix(script, BadHead) then
      Some(ControlWrite(script[|BadHead|..|script| - |ScriptTail|], "on"))
    else None
  }

  /** toggle_good, read back by ScriptWrite, writes "auto" to the device it was built for. */
  lemma GoodScriptWrites(path: string)
    ensures ScriptWrite(GoodScript(path)) == Some(ControlWrite(path, "auto"))
  {
    var s := GoodScript(path);
    assert s[..|GoodHead|] == GoodHead;
    assert s[|s| - |ScriptTail|..] == ScriptTail;
    assert s[|GoodHead|..|s| - |ScriptTail|] == path;
  }

  /** toggle_bad, read back by ScriptWrite, writes "on" to the device it was built for. */
  lemma BadScriptWrites(path: string)
    ensures ScriptWrite(BadScript(path)) == Some(ControlWrite(path, "on"))
  {
    var s := BadScript(path);
    assert s[..|BadHead|] == BadHead;
    assert s[|s| - |ScriptTail|..] == ScriptTail;
    assert s[|BadHead|..|s| - |ScriptTail|] == path;
    BadHeadIsNotGoodHead(s);
  }

  /** The two heads differ at their seventh character, 'o' against 'a'. */
  lemma BadHeadIsNotGoodHead(s: string)
    requires HasPrefix(s, BadHead)
    ensures !HasPrefix(s, GoodHead)
  {
    assert s[6] == BadHead[6] == 'o';
    assert GoodHead[6] == 'a';
  }

  /** The two scripts of one device differ, and scripts of different devices differ. */
  lemma ScriptsDistinguishDevices(path1: string, path2: string)
    ensures GoodScript(path1) != BadScript(path2)
    ensures GoodScript(path1) == GoodScript(path2) ==> path1 == path2
    ensures BadScript(path1) == BadScript(path2) ==> path1 == path2
  {
    GoodScriptWrites(path1);
    GoodScriptWrites(path2);
    BadScriptWrites(path1);
    BadScriptWrites(path2);
  }

  // ---------------------------------------------------------------------
  // The tunable object
  // ---------------------------------------------------------------------

  /**
   * A tunable: its description and its two scripts are fixed when it is
   * built; its state lives in the device it wraps.
   */
  class Tunable {
    const desc: string
    const toggleGood: string
    const toggleBad: string
    const dev: Device

    /** The scripts address the control attribute of this tunable's own device. */
    ghost predicate Valid() {
      toggleGood == GoodScript(dev.syspath) && toggleBad == BadScript(dev.syspath)
    }

    /** The part of the usb_tunable and runtime_tunable constructors after the description. */
    constructor (desc: string, dev: Device)
      ensures this.desc == desc && this.dev == dev && Valid()
    {
      this.desc := desc;
      this.dev := dev;
      toggleGood := GoodScript(dev.syspath);
      toggleBad := BadScript(dev.syspath);
    }

    /** good_bad: Good exactly when power/control reads "auto"; Unknown is never returned. */
    method GoodBad() returns (state: TuneState)
      requires ControlAttr in dev.attrs
      ensures state == Good <==> dev.attrs[ControlAttr] == "auto"
      ensures state != Unknown
    {
      state := Probe(dev.attrs[ControlAttr]);
    }

    /**
     * toggle: writes "on" in the good state and "auto" otherwise, to
     * power/control and nothing else, so that the probe flips.
     */
    method Toggle()
      requires ControlAttr in dev.attrs
      modifies dev
      ensures dev.attrs == old(dev.attrs)[ControlAttr := ToggleValue(Probe(old(dev.attrs[ControlAttr])))]
      ensures Probe(dev.attrs[ControlAttr]) != Probe(old(dev.attrs[ControlAttr]))
    {
      var state := GoodBad();
      var value := if state == Good then "on" else "auto";
      dev.attrs := dev.attrs[ControlAttr := value];
    }

    /**
     * toggle_script: the stored script for the opposite state, which
     * ScriptWrite reads back as the write toggle makes; nothing changes.
     */
    method ToggleScript() returns (script: string)
      requires Valid()
      requires ControlAttr in dev.attrs
      ensures script == if dev.attrs[ControlAttr] == "auto" then toggleBad else toggleGood
      ensures ScriptWrite(script) == Some(ControlWrite(dev.syspath, ToggleValue(Probe(dev.attrs[ControlAttr]))))
    {
      var state := GoodBad();
      script := if state == Good then toggleBad else toggleGood;
      GoodScriptWrites(dev.syspath);
      BadScriptWrites(dev.syspath);
    }
  }

  /** all_tunables and all_untunables; they are declared outside the
      modelled files and the constructor only gives their empty start. */
  class Catalogs {
    var tunables: seq<Tunable>
    var untunables: seq<Tunable>

    constructor ()
      ensures tunables == [] && untunables == []
    {
      tunables := [];
      untunables := [];
    }
  }
}
