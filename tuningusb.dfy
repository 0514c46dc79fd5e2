/**
 * USB autosuspend tunables (src/tuning/tuningusb.cpp): the description
 * built from the device's manufacturer and product strings, and the
 * discovery callback that leaves out composite devices with a child
 * that cannot autosuspend.
 */
module TuningUsb {
  import opened Wrappers
  import opened Text
  import opened Tunables

  /** A manufacturer string containing this names the kernel's own root hub. */
  const LinuxMarker: string := "Linux "

  const KnownHead: string := "Autosuspend for USB device "
  const UnknownHead: string := "Autosuspend for unknown USB device "

  /** "Autosuspend for USB device %s [%s]" */
  const KnownFormat: string := KnownHead + ("%s" + (" [" + ("%s" + "]")))
  /** "Autosuspend for unknown USB device %s (%s:%s)" */
  const UnknownFormat: string := UnknownHead + ("%s" + (" (" + ("%s" + (":" + ("%s" + ")")))))

  /** What glibc's printf writes for a "%s" argument: the text, or "(null)" for NULL. */
  function Shown(arg: Option<string>): (text: string)
    ensures arg.Some? ==> text == arg.value
    ensures arg.None? ==> text == "(null)"
  {
    match arg
    case Some(s) => s
    case None => "(null)"
  }

  /** sprintf with "Autosuspend for USB device %s [%s]" writes the name, then the tag in brackets. */
  lemma KnownFormatPrints(name: string, tag: string)
    ensures Holes(KnownFormat) == 2
    ensures Format(KnownFormat, [name, tag]) == KnownHead + name + " [" + tag + "]"
  {
    Format2(KnownHead, name, " [", tag, "]");
  }

  /** sprintf with "Autosuspend for unknown USB device %s (%s:%s)" writes the sysname, then the two IDs. */
  lemma UnknownFormatPrints(sysname: string, idVendor: string, idProduct: string)
    ensures Holes(UnknownFormat) == 3
    ensures Format(UnknownFormat, [sysname, idVendor, idProduct])
         == UnknownHead + sysname + " (" + idVendor + ":" + idProduct + ")"
  {
    Format3(UnknownHead, sysname, " (", idVendor, ":", idProduct, ")");
  }

  /** The known-device description. */
  function KnownDescription(name: string, tag: string): (desc: string)
    ensures desc == KnownHead + name + " [" + tag + "]"
    ensures HasPrefix(desc, KnownHead)
  {
    KnownFormatPrints(name, tag);
    assert (KnownHead + name + " [" + tag + "]")[..|KnownHead|] == KnownHead;
    Format(KnownFormat, [name, tag])
  }

  /** The unknown-device description. */
  function UnknownDescription(sysname: string, idVendor: string, idProduct: string): (desc: string)
    ensures desc == UnknownHead + sysname + " (" + idVendor + ":" + idProduct + ")"
    ensures HasPrefix(desc, UnknownHead)
  {
    UnknownFormatPrints(sysname, idVendor, idProduct);
    assert (UnknownHead + sysname + " (" + idVendor + ":" + idProduct + ")")[..|UnknownHead|] == UnknownHead;
    Format(UnknownFormat, [sysname, idVendor, idProduct])
  }

  /** The manufacturer string is present and names the Linux root hub. */
  predicate LinuxVendor(vendor: Option<string>) {
    vendor.Some? && Contains(vendor.value, LinuxMarker)
  }

  /**
   * The usb_tunable description, from the device's sysname and its
   * manufacturer, product, idVendor and idProduct attributes.
   */
  function UsbDescription(sysname: string, attrs: map<string, string>): (desc: string)
    ensures var vendor, product := Attr(attrs, "manufacturer"), Attr(attrs, "product");
      && (product.Some? && LinuxVendor(vendor) ==>
            desc == KnownHead + product.value + " [" + vendor.value + "]")
      && (product.Some? && !LinuxVendor(vendor) ==>
            desc == KnownHead + product.value + " [" + sysname + "]")
      && (product.None? && LinuxVendor(vendor) ==>
            desc == KnownHead + vendor.value + " [" + sysname + "]")
      && (product.None? && !LinuxVendor(vendor) ==>
            desc == UnknownHead + sysname + " (" + Shown(Attr(attrs, "idVendor")) + ":"
                    + Shown(Attr(attrs, "idProduct")) + ")")
  {
    var vendor := Attr(attrs, "manufacturer");
    var product := Attr(attrs, "product");
    if vendor.Some? && product.Some? && Contains(vendor.value, LinuxMarker) then
      KnownDescription(product.value, vendor.value)
    else if product.Some? then
      KnownDescription(product.value, sysname)
    else if vendor.Some? && Contains(vendor.value, LinuxMarker) then
      KnownDescription(vendor.value, sysname)
    else
      UnknownDescription(sysname, Shown(Attr(attrs, "idVendor")), Shown(Attr(attrs, "idProduct")))
  }

  /**
   * A device is described as unknown exactly when it has no product
   * string and its manufacturer string (if any) does not name the Linux
   * root hub; every other device gets the known form.
   */
  lemma UnknownExactlyWithoutIdentity(sysname: string, attrs: map<string, string>)
    ensures HasPrefix(UsbDescription(sysname, attrs), UnknownHead)
        <==> Attr(attrs, "product").None? && !LinuxVendor(Attr(attrs, "manufacturer"))
    ensures HasPrefix(UsbDescription(sysname, attrs), KnownHead)
        <==> Attr(attrs, "product").Some? || LinuxVendor(Attr(attrs, "manufacturer"))
  {
    var desc := UsbDescription(sysname, attrs);
    if Attr(attrs, "product").None? && !LinuxVendor(Attr(attrs, "manufacturer")) {
      assert HasPrefix(desc, UnknownHead);
      HeadsDiffer(desc, UnknownHead, KnownHead);
    } else {
      assert HasPrefix(desc, KnownHead);
      HeadsDiffer(desc, KnownHead, UnknownHead);
    }
  }

  /** The two description heads differ at their seventeenth character, 'U' against 'u'. */
  lemma HeadsDiffer(s: string, head: string, other: string)
    requires head == KnownHead || head == UnknownHead
    requires other == KnownHead || other == UnknownHead
    requires head != other
    requires HasPrefix(s, head)
    ensures !HasPrefix(s, other)
  {
    assert s[16] == head[16];
    assert KnownHead[16] == 'U' && UnknownHead[16] == 'u';
  }

  /** A manufacturer string that starts with the marker names the Linux root hub. */
  lemma MarkerAtStartIsLinuxVendor(vendor: string)
    requires HasPrefix(vendor, LinuxMarker)
    ensures LinuxVendor(Some(vendor))
  {
    assert OccursAt(vendor, LinuxMarker, 0);
  }

  /**
   * A root hub, whose manufacturer string is the kernel's "Linux <release>
   * <driver>", is tagged with that string rather than with its sysname,
   * whether or not it has a product string.
   */
  lemma RootHubTaggedWithKernel(sysname: string, attrs: map<string, string>, release: string)
    requires "manufacturer" in attrs && attrs["manufacturer"] == LinuxMarker + release
    ensures "product" in attrs ==>
      UsbDescription(sysname, attrs) == KnownHead + attrs["product"] + " [" + attrs["manufacturer"] + "]"
    ensures "product" !in attrs ==>
      UsbDescription(sysname, attrs) == KnownHead + attrs["manufacturer"] + " [" + sysname + "]"
  {
    assert (LinuxMarker + release)[..|LinuxMarker|] == LinuxMarker;
    MarkerAtStartIsLinuxVendor(attrs["manufacturer"]);
  }

  /** udev's match of "supports_autosuspend" against "0". */
  predicate LacksAutosuspend(attrs: map<string, string>) {
    "supports_autosuspend" in attrs && attrs["supports_autosuspend"] == "0"
  }

  /** The enumeration under the device finds nothing that lacks autosuspend support. */
  predicate AllAutosuspend(subtree: seq<map<string, string>>) {
    forall i :: 0 <= i < |subtree| ==> !LacksAutosuspend(subtree[i])
  }

  /**
   * add_usb_callback for the device opened from the callback's path.
   * `subtree` holds the attributes of the devices the enumeration under
   * it visits; udev's parent match includes the device itself. Exactly
   * one new tunable for the device is appended to all_tunables when none
   * of them lacks autosuspend support; otherwise nothing changes, in
   * particular for a device that itself lacks it.
   */
  method AddUsbCallback(cat: Catalogs, dev: Device, subtree: seq<map<string, string>>)
    requires dev.attrs in subtree
    modifies cat
    ensures cat.untunables == old(cat.untunables)
    ensures !AllAutosuspend(subtree) ==> cat.tunables == old(cat.tunables)
    ensures LacksAutosuspend(dev.attrs) ==> cat.tunables == old(cat.tunables)
    ensures AllAutosuspend(subtree) ==>
      && |cat.tunables| == |old(cat.tunables)| + 1
      && cat.tunables[..|old(cat.tunables)|] == old(cat.tunables)
      && var t := cat.tunables[|old(cat.tunables)|];
         fresh(t) && t.dev == dev && t.Valid() && t.desc == UsbDescription(dev.sysname, dev.attrs)
  {
    if AllAutosuspend(subtree) {
      var t := new Tunable(UsbDescription(dev.sysname, dev.attrs), dev);
      cat.tunables := cat.tunables + [t];
    }
  }
}
