/**
 * `LvtkDialElement`: a knob drawn as an SVG image inside a drop-shadow element, with the image
 * rotated to show the current value.
 */
module LvtkDialElement {
  import opened Wrappers

  datatype Alignment = Start | Center | End | Stretch

  datatype Color = Color(r: real, g: real, b: real, a: real)

  /** `LvtkDropShadow`: the shadow's parameters, which the dial passes on without reading. */
  datatype DropShadow = DropShadow(xOffset: real, yOffset: real, radius: real, opacity: real, color: Color)

  /** The parts of the window's theme that the dial reads when it is mounted. */
  datatype Theme = Theme(dialStyle: string, dialDropShadow: DropShadow)

  const MinAngle: real := -135.0
  const MaxAngle: real := 135.0

  /** The rotation of the dial image, in degrees, for a normalised value. */
  function Rotation(value: real): (angle: real)
    ensures 0.0 <= value <= 1.0 ==> MinAngle <= angle <= MaxAngle
  {
    (value - 0.5) * (2.0 * 135.0)
  }

  /** The normalised value that a rotation shows. */
  function ValueShown(angle: real): (value: real)
    ensures MinAngle <= angle <= MaxAngle ==> 0.0 <= value <= 1.0
  {
    angle / 270.0 + 0.5
  }

  /** Values 0, 0.5 and 1 point the dial fully left, straight up and fully right. */
  lemma RotationEndpoints()
    ensures Rotation(0.0) == MinAngle && Rotation(0.5) == 0.0 && Rotation(1.0) == MaxAngle
  {
  }

  /** A larger value always turns the dial further clockwise, and only a larger value does. */
  lemma RotationStrictlyIncreasing(a: real, b: real)
    ensures a < b <==> Rotation(a) < Rotation(b)
  {
  }

  /** A rotation shows exactly one value, so the value can be read back from the dial. */
  lemma RotationRoundTrip(value: real, angle: real)
    ensures ValueShown(Rotation(value)) == value
    ensures Rotation(ValueShown(angle)) == angle
  {
  }

  /** The drop shadow used on mount: the dial's own setting when it has one, else the theme's. */
  function MountedDropShadow(setting: Option<DropShadow>, theme: Theme): (d: DropShadow)
    ensures setting.Some? ==> d == setting.value
    ensures setting.None? ==> d == theme.dialDropShadow
  {
    setting.GetOr(theme.dialDropShadow)
  }

  /** `LvtkSvgElement`: the style properties the dial sets, each unset until assigned. */
  class SvgElement {
    var horizontalAlignment: Option<Alignment>
    var verticalAlignment: Option<Alignment>
    var tintColor: Option<Color>
    var rotation: real
    var source: string

    constructor ()
      ensures horizontalAlignment == None && verticalAlignment == None && tintColor == None
      ensures rotation == 0.0 && source == ""
    {
      horizontalAlignment, verticalAlignment, tintColor := None, None, None;
      rotation, source := 0.0, "";
    }
  }

  /** `LvtkDropShadowElement`: a container that draws a shadow under its children. */
  class DropShadowElement {
    var children: seq<SvgElement>
    var opacity: Option<real>
    var dropShadow: Option<DropShadow>
    /** How many times the element has asked to be redrawn. */
    var invalidations: nat

    constructor ()
      ensures children == [] && opacity == None && dropShadow == None && invalidations == 0
    {
      children, opacity, dropShadow, invalidations := [], None, None, 0;
    }

    method AddChild(child: SvgElement)
      modifies this`children
      ensures children == old(children) + [child]
    {
      children := children + [child];
    }

    method Invalidate()
      modifies this`invalidations
      ensures invalidations == old(invalidations) + 1
    {
      invalidations := invalidations + 1;
    }
  }

  /** `LvtkDialElement` with its two children and the properties it reads. */
  class DialElement {
    /** `Value()`, normalised to 0..1. */
    var value: real
    var source: string
    var tintImage: bool
    /** `DropShadow()`: the dial's own drop-shadow setting, if any. */
    var dropShadowSetting: Option<DropShadow>
    /** `Style().Color()`. */
    var color: Color
    var classes: seq<string>
    var children: seq<DropShadowElement>
    const dropShadow: DropShadowElement
    const image: SvgElement

    /**
     * The constructor: the dial holds a new drop-shadow element whose only child is a new image
     * that stretches on both axes, shows the dial's source and is rotated for the current value.
     */
    constructor (value: real, source: string, tintImage: bool, dropShadowSetting: Option<DropShadow>, color: Color)
      ensures this.value == value && this.source == source && this.tintImage == tintImage
      ensures this.dropShadowSetting == dropShadowSetting && this.color == color && classes == []
      ensures fresh(dropShadow) && fresh(image)
      ensures children == [dropShadow] && dropShadow.children == [image]
      ensures image.horizontalAlignment == Some(Stretch) && image.verticalAlignment == Some(Stretch)
      ensures image.source == source && image.tintColor == None
      ensures image.rotation == Rotation(value)
      ensures dropShadow.opacity == None && dropShadow.dropShadow == None && dropShadow.invalidations == 0
    {
      this.value := value;
      this.source := source;
      this.tintImage := tintImage;
      this.dropShadowSetting := dropShadowSetting;
      this.color := color;
      classes := [];
      var shadow := new DropShadowElement();
      dropShadow := shadow;
      children := [shadow];
      var svg := new SvgElement();
      image := svg;
      new;
      dropShadow.AddChild(image);
      image.horizontalAlignment := Some(Stretch);
      image.verticalAlignment := Some(Stretch);
      image.source := source;
      OnValueChanged(value);
    }

    /**
     * `OnMount`: takes the theme's dial style, tints the image with the text colour only when
     * `TintImage()` is set, and gives the drop-shadow element the dial's own setting or else
     * the theme's.
     */
    method OnMount(theme: Theme)
      modifies this`classes, image`tintColor, dropShadow`dropShadow
      ensures classes == [theme.dialStyle]
      ensures tintImage ==> image.tintColor == Some(color)
      ensures !tintImage ==> image.tintColor == old(image.tintColor)
      ensures dropShadow.dropShadow == Some(MountedDropShadow(dropShadowSetting, theme))
    {
      classes := [theme.dialStyle];
      if tintImage {
        image.tintColor := Some(color);
      }
      var shadow := if dropShadowSetting.Some? then dropShadowSetting.value else theme.dialDropShadow;
      dropShadow.dropShadow := Some(shadow);
    }

    /** `OnValueChanged`: the rotation follows the dial's current value; the argument is not used. */
    method OnValueChanged(ignored: real)
      modifies image`rotation
      ensures image.rotation == Rotation(value)
    {
      image.rotation := Rotation(value);
    }

    /** `OnDialOpacityChanged`: the drop-shadow element takes the opacity and is redrawn. */
    method OnDialOpacityChanged(opacity: real)
      modifies dropShadow`opacity, dropShadow`invalidations
      ensures dropShadow.opacity == Some(opacity)
      ensures dropShadow.invalidations == old(dropShadow.invalidations) + 1
    {
      dropShadow.opacity := Some(opacity);
      dropShadow.Invalidate();
    }
  }
}
