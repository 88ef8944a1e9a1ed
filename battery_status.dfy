/** The battery icon of the Corne-ish Zen display: the charge level is put
    in one of six buckets, and the icon is replaced only when the bucket or
    the USB power state differs from the last one shown. */
module BatteryStatus {
  import opened Base

  /** The battery images, named by the charge they depict. */
  datatype Image = Batt0 | Batt5 | Batt25 | Batt50 | Batt75 | Batt100

  /** An image together with its charging (`_chg`) variant flag. */
  datatype Icon = Icon(image: Image, charging: bool)

  /** The charge, in percent, an image depicts. */
  function Percent(img: Image): nat
  {
    match img
    case Batt0 => 0
    case Batt5 => 5
    case Batt25 => 25
    case Batt50 => 50
    case Batt75 => 75
    case Batt100 => 100
  }

  /** The state of `set_battery_symbol`: the level bucket, from 0 to 5. */
  function Bucket(level: byte): (state: byte)
    ensures state <= 5
    ensures state == 5 <==> level > 87
    ensures state >= 4 <==> level > 62
    ensures state >= 3 <==> level > 37
    ensures state >= 2 <==> level > 12
    ensures state >= 1 <==> level > 5
  {
    if level > 87 then 5
    else if level > 62 then 4
    else if level > 37 then 3
    else if level > 12 then 2
    else if level > 5 then 1
    else 0
  }

  /** A fuller battery never lands in a lower bucket. */
  lemma BucketMonotone(a: byte, b: byte)
    requires a <= b
    ensures Bucket(a) <= Bucket(b)
  {
  }

  /** The icon for a state: one image per bucket, any other state showing
      the empty one, in its charging variant exactly when USB powers the
      board. */
  function IconFor(state: byte, usb: bool): (icon: Icon)
    ensures icon.charging == usb
    ensures icon.image == Batt0 <==> (state == 0 || state > 5)
  {
    var img := match state
      case 5 => Batt100
      case 4 => Batt75
      case 3 => Batt50
      case 2 => Batt25
      case 1 => Batt5
      case _ => Batt0;
    Icon(img, usb)
  }

  /** Distinct buckets and power states show distinct icons. */
  lemma IconsAreDistinct(s1: byte, u1: bool, s2: byte, u2: bool)
    requires s1 <= 5 && s2 <= 5
    ensures IconFor(s1, u1) == IconFor(s2, u2) <==> s1 == s2 && u1 == u2
  {
  }

  /** For a level of at most 100 % the icon depicts a charge within 12
      points of it: the buckets round to the nearest image. */
  lemma IconIsNearest(level: byte, usb: bool)
    requires level <= 100
    ensures var p := Percent(IconFor(Bucket(level), usb).image);
            -12 <= p - level <= 12
  {
  }

  /** The cached pair `state_prev`, `usb_prev`. */
  datatype Cache = Cache(statePrev: byte, usbPrev: bool)

  /** The result of one `set_battery_symbol`: the new cache and the icon
      set, if any. */
  datatype Refreshed = Refreshed(cache: Cache, icon: Option<Icon>)

  /** `set_battery_symbol` on values. */
  function Refresh(c: Cache, level: byte, usb: bool): (r: Refreshed)
    ensures r.cache == Cache(Bucket(level), usb)
    ensures r.icon.Some? <==> (usb != c.usbPrev || Bucket(level) != c.statePrev)
    ensures r.icon.Some? ==> r.icon.value == IconFor(r.cache.statePrev, usb)
  {
    var state := Bucket(level);
    if usb != c.usbPrev || state != c.statePrev then Refreshed(Cache(state, usb), Some(IconFor(state, usb)))
    else Refreshed(c, None)
  }

  /** A second refresh with the same level and power state changes nothing
      and sets no icon. */
  lemma RefreshIdempotent(c: Cache, level: byte, usb: bool)
    ensures var r := Refresh(c, level, usb);
            Refresh(r.cache, level, usb) == Refreshed(r.cache, None)
  {
  }

  /** The cache starts zeroed: a first refresh with a level of at most 5 %
      and no USB power sets no icon, so the widget stays without one. */
  lemma FirstRefreshMaySetNothing(level: byte)
    requires level <= 5
    ensures Refresh(Cache(0, false), level, false).icon == None
  {
  }

  /** What a widget shows agrees with the cache: nothing, or the icon of the
      cached pair. */
  predicate InSync(src: Option<Icon>, c: Cache)
  {
    src.None? || src == Some(IconFor(c.statePrev, c.usbPrev))
  }

  /** Refreshing a widget that shows its cache's icon keeps it so, and
      afterwards it shows the icon of the current level and power state
      unless it was blank and the cache already held that pair. */
  lemma RefreshKeepsInSync(src: Option<Icon>, c: Cache, level: byte, usb: bool)
    requires InSync(src, c)
    ensures var r := Refresh(c, level, usb);
            var shown := if r.icon.Some? then r.icon else src;
            && InSync(shown, r.cache)
            && (shown.Some? ==> shown == Some(IconFor(Bucket(level), usb)))
            && (shown.None? <==> src.None? && r.icon.None?)
  {
  }

  /** An `lv_img` object: the image source it shows. */
  class Widget {
    var src: Option<Icon>

    /** `lv_img_create`: no image yet. */
    constructor ()
      ensures src.None?
    {
      src := None;
    }
  }

  /** The module's static state: `battery_status_state` and the style
      once-flag. */
  class Status {
    var level: byte
    var usbPresent: bool
    var statePrev: byte
    var usbPrev: bool
    var styleInitialized: bool
    /** How often the label style was set up. */
    var styleSetups: nat

    /** Static storage: everything zero. */
    constructor ()
      ensures level == 0 && !usbPresent && statePrev == 0 && !usbPrev
      ensures !styleInitialized && styleSetups == 0
    {
      level := 0;
      usbPresent := false;
      statePrev := 0;
      usbPrev := false;
      styleInitialized := false;
      styleSetups := 0;
    }

    function CacheOf(): Cache
      reads this
    {
      Cache(statePrev, usbPrev)
    }

    /** `set_battery_symbol`: bucket the stored level; when the bucket or
        the USB state differs from the cached pair, set the icon and cache
        the new pair. Only the level and USB state are read. */
    method SetBatterySymbol(icon: Widget)
      modifies this`statePrev, this`usbPrev, icon
      ensures var r := Refresh(old(CacheOf()), level, usbPresent);
              && CacheOf() == r.cache
              && icon.src == (if r.icon.Some? then r.icon else old(icon.src))
    {
      var state := Bucket(level);
      if usbPresent != usbPrev || state != statePrev {
        icon.src := Some(IconFor(state, usbPresent));
        usbPrev := usbPresent;
        statePrev := state;
      }
    }

    /** `battery_status_listener`: store the battery level and USB power
        state; nothing else changes. */
    method Listener(batteryLevel: byte, usbPowered: bool)
      modifies this`level, this`usbPresent
      ensures level == batteryLevel && usbPresent == usbPowered
    {
      level := batteryLevel;
      usbPresent := usbPowered;
    }

    /** `battery_status_init`: set up the label style on the first call
        only. */
    method Init()
      modifies this`styleInitialized, this`styleSetups
      ensures styleInitialized
      ensures styleSetups == if old(styleInitialized) then old(styleSetups) else old(styleSetups) + 1
    {
      if styleInitialized {
        return;
      }
      styleInitialized := true;
      styleSetups := styleSetups + 1;
    }
  }
}
