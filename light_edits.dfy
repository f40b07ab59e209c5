/**
 * The pure parts of LightActor (src/background/reconcile/actors/LightActor.ts):
 * hex colour parsing and the three item edits its updaters apply.
 */
module LightEdits {
  import opened Wrappers
  import opened Seqs
  import opened Scene
  import opened CanvasKit
  import opened LocalItems

  const COLOR_UNIFORM := "color"
  const RADIUS_UNIFORM := "radius"

  /** The radius used when the config has none. */
  const DEFAULT_RADIUS: real := 150.0

  // ---------------------------------------------------------------------------
  // hexToRgb

  /** One character of the class `[a-f\d]` under the `i` flag, as its value. */
  function HexDigit(c: char): (r: Option<nat>)
    ensures r.Some? ==> r.value < 16
  {
    if '0' <= c <= '9' then Some(c as int - '0' as int)
    else if 'a' <= c <= 'f' then Some(c as int - 'a' as int + 10)
    else if 'A' <= c <= 'F' then Some(c as int - 'A' as int + 10)
    else None
  }

  predicate IsHexDigit(c: char) {
    HexDigit(c).Some?
  }

  /** `parseInt(pair, 16)` of two hex digits. */
  function Byte(hi: char, lo: char): (b: nat)
    requires IsHexDigit(hi) && IsHexDigit(lo)
    ensures b < 256
  {
    HexDigit(hi).value * 16 + HexDigit(lo).value
  }

  /** The six digits after an optional leading '#', when the whole string matches. */
  function ColorDigits(s: string): (r: Option<string>)
    ensures r.Some? ==> |r.value| == 6 && forall i :: 0 <= i < 6 ==> IsHexDigit(r.value[i])
  {
    var digits := if |s| > 0 && s[0] == '#' then s[1..] else s;
    if |digits| == 6 && forall i :: 0 <= i < 6 ==> IsHexDigit(digits[i]) then Some(digits) else None
  }

  /** hexToRgb: each byte divided by 255. */
  function HexToRgb(s: string): (r: Option<Vec3>)
    ensures r.Some? <==> ColorDigits(s).Some?
    ensures r.Some? ==> 0.0 <= r.value.x <= 1.0 && 0.0 <= r.value.y <= 1.0 && 0.0 <= r.value.z <= 1.0
  {
    match ColorDigits(s)
    case None => None
    case Some(d) =>
      Some(Vec3(Byte(d[0], d[1]) as real / 255.0, Byte(d[2], d[3]) as real / 255.0, Byte(d[4], d[5]) as real / 255.0))
  }

  /** An independent reading of the pattern: '#' and six hex digits, or six hex digits alone. */
  predicate MatchesColor(s: string) {
    (|s| == 7 && s[0] == '#' && forall i :: 1 <= i < 7 ==> IsHexDigit(s[i]))
    || (|s| == 6 && forall i :: 0 <= i < 6 ==> IsHexDigit(s[i]))
  }

  lemma HexToRgbAccepts(s: string)
    ensures HexToRgb(s).Some? <==> MatchesColor(s)
  {
    if |s| == 7 && s[0] == '#' {
      assert forall i :: 1 <= i < 7 ==> s[i] == s[1..][i - 1];
    }
    if |s| > 0 && s[0] == '#' && |s[1..]| == 6 {
      assert forall i :: 0 <= i < 6 ==> s[1..][i] == s[i + 1];
    }
  }

  /** Lower-case hex digit of a value below 16. */
  function HexChar(v: nat): (c: char)
    requires v < 16
    ensures HexDigit(c) == Some(v)
  {
    if v < 10 then ('0' as int + v) as char else ('a' as int + v - 10) as char
  }

  /** The two digits of a byte. */
  function ByteHex(b: nat): (s: string)
    requires b < 256
    ensures |s| == 2 && IsHexDigit(s[0]) && IsHexDigit(s[1]) && Byte(s[0], s[1]) == b
  {
    [HexChar(b / 16), HexChar(b % 16)]
  }

  /** "#rrggbb" for three bytes: the form the colour picker stores. */
  function RgbToHex(r: nat, g: nat, b: nat): string
    requires r < 256 && g < 256 && b < 256
  {
    "#" + ByteHex(r) + ByteHex(g) + ByteHex(b)
  }

  /** Parsing what the encoder writes gives back the three bytes, scaled to [0, 1]. */
  lemma HexRoundTrip(r: nat, g: nat, b: nat)
    requires r < 256 && g < 256 && b < 256
    ensures HexToRgb(RgbToHex(r, g, b)) == Some(Vec3(r as real / 255.0, g as real / 255.0, b as real / 255.0))
  {
    var s := RgbToHex(r, g, b);
    var d := ByteHex(r) + ByteHex(g) + ByteHex(b);
    assert s[1..] == d;
    assert ColorDigits(s) == Some(d);
  }

  /** The `config.color ? hexToRgb(config.color) : null` pattern: an empty string is falsy. */
  function ConfigColor(config: LightConfig): (r: Option<Vec3>)
    ensures r.Some? <==> config.color.Some? && HexToRgb(config.color.value).Some?
  {
    if config.color.Some? && config.color.value != "" then HexToRgb(config.color.value) else None
  }

  // ---------------------------------------------------------------------------
  // applyLightConfig

  function Override<T>(config: Option<T>, current: Option<T>): Option<T> {
    if config.Some? then config else current
  }

  /** applyLightConfig: every defined field is copied; a defined rotation is added to the parent's. */
  function ApplyLightConfig(parent: Item, light: LocalItem, config: LightConfig): (r: LocalItem)
    requires light.content.LightContent?
    ensures r.content.LightContent?
    ensures r.id == light.id && r.attachedTo == light.attachedTo && r.visible == light.visible
    ensures r.transform.position == light.transform.position && r.transform.scale == light.transform.scale
    ensures r.doorIndex == light.doorIndex
    ensures var f, g := r.content.light, light.content.light;
      && (config.attenuationRadius.Some? ==> f.attenuationRadius == config.attenuationRadius)
      && (config.attenuationRadius.None? ==> f.attenuationRadius == g.attenuationRadius)
      && (config.sourceRadius.Some? ==> f.sourceRadius == config.sourceRadius)
      && (config.sourceRadius.None? ==> f.sourceRadius == g.sourceRadius)
      && (config.falloff.Some? ==> f.falloff == config.falloff)
      && (config.falloff.None? ==> f.falloff == g.falloff)
      && (config.innerAngle.Some? ==> f.innerAngle == config.innerAngle)
      && (config.innerAngle.None? ==> f.innerAngle == g.innerAngle)
      && (config.outerAngle.Some? ==> f.outerAngle == config.outerAngle)
      && (config.outerAngle.None? ==> f.outerAngle == g.outerAngle)
      && (config.lightType.Some? ==> f.lightType == config.lightType)
      && (config.lightType.None? ==> f.lightType == g.lightType)
    ensures config.rotation.Some? ==> r.transform.rotation == parent.transform.rotation + config.rotation.value
    ensures config.rotation.None? ==> r.transform.rotation == light.transform.rotation
  {
    var g := light.content.light;
    var f := LightFields(
      Override(config.attenuationRadius, g.attenuationRadius),
      Override(config.sourceRadius, g.sourceRadius),
      Override(config.falloff, g.falloff),
      Override(config.innerAngle, g.innerAngle),
      Override(config.outerAngle, g.outerAngle),
      Override(config.lightType, g.lightType));
    var rotation := if config.rotation.Some? then parent.transform.rotation + config.rotation.value
                    else light.transform.rotation;
    light.(content := LightContent(f), transform := light.transform.(rotation := rotation))
  }

  /** Applying the same config twice is applying it once. */
  lemma ApplyLightConfigIdempotent(parent: Item, light: LocalItem, config: LightConfig)
    requires light.content.LightContent?
    ensures ApplyLightConfig(parent, ApplyLightConfig(parent, light, config), config)
            == ApplyLightConfig(parent, light, config)
  {
  }

  // ---------------------------------------------------------------------------
  // applyWalls

  function RadiusOf(config: LightConfig): real {
    if config.attenuationRadius.Some? then config.attenuationRadius.value else DEFAULT_RADIUS
  }

  function Sub(a: Vec2, b: Vec2): Vec2 {
    Vec2(a.x - b.x, a.y - b.y)
  }

  function Add(a: Vec2, b: Vec2): Vec2 {
    Vec2(a.x + b.x, a.y + b.y)
  }

  /** The visibility polygon around the parent, clipped to the square of half-side R around it. */
  function Visibility(kit: Kit, walls: seq<seq<Vec2>>, parent: Item, config: LightConfig): seq<Vec2> {
    var p := parent.transform.position;
    var r := RadiusOf(config);
    kit.viewport(p, kit.segments(walls), Vec2(p.x - r, p.y - r), Vec2(p.x + r, p.y + r))
  }

  /** applyWalls: the polygon's points are the visibility polygon, relative to the parent's position. */
  function ApplyWalls(kit: Kit, walls: seq<seq<Vec2>>, parent: Item, polygon: LocalItem, config: LightConfig)
    : (r: LocalItem)
    requires polygon.content.CurveContent?
    ensures r.content.CurveContent? && r == polygon.(content := CurveContent(r.content.points))
    ensures var v := Visibility(kit, walls, parent, config);
      && |r.content.points| == |v|
      && forall i :: 0 <= i < |v| ==> Add(r.content.points[i], parent.transform.position) == v[i]
  {
    var v := Visibility(kit, walls, parent, config);
    var p := parent.transform.position;
    polygon.(content := CurveContent(seq(|v|, i requires 0 <= i < |v| => Sub(v[i], p))))
  }

  // ---------------------------------------------------------------------------
  // applyEffect

  /** `uniforms.find(u => u.name === name)`, as an index. */
  function FindUniform(us: seq<Uniform>, name: string): (r: Option<nat>)
    ensures r.Some? ==>
              && r.value < |us| && us[r.value].name == name
              && forall j :: 0 <= j < r.value ==> us[j].name != name
    ensures r.None? ==> forall j :: 0 <= j < |us| ==> us[j].name != name
  {
    if us == [] then None
    else if us[0].name == name then Some(0)
    else
      match FindUniform(us[1..], name)
      case None => None
      case Some(k) => Some(k + 1)
  }

  function SetUniform(us: seq<Uniform>, name: string, value: UniformValue): (r: seq<Uniform>)
    ensures |r| == |us|
  {
    match FindUniform(us, name)
    case None => us
    case Some(k) => us[k := Uniform(name, value)]
  }

  /** applyEffect: the colour uniform changes only when the colour parses; the radius uniform always. */
  function ApplyEffect(effect: LocalItem, config: LightConfig): (r: LocalItem)
    requires effect.content.EffectContent?
    ensures r.content.EffectContent? && r == effect.(content := r.content)
    ensures var us, vs := effect.content.uniforms, r.content.uniforms;
      && |vs| == |us|
      && (forall j :: 0 <= j < |us| && us[j].name != COLOR_UNIFORM && us[j].name != RADIUS_UNIFORM ==> vs[j] == us[j])
      && (FindUniform(us, RADIUS_UNIFORM).Some? ==>
            vs[FindUniform(us, RADIUS_UNIFORM).value].value == Scalar(RadiusOf(config)))
      && (FindUniform(us, COLOR_UNIFORM).Some? && ConfigColor(config).Some? ==>
            vs[FindUniform(us, COLOR_UNIFORM).value].value == Color(ConfigColor(config).value))
      && (ConfigColor(config).None? ==> forall j :: 0 <= j < |us| && us[j].name == COLOR_UNIFORM ==> vs[j] == us[j])
  {
    var us := effect.content.uniforms;
    var colored := match ConfigColor(config)
      case None => us
      case Some(rgb) => SetUniform(us, COLOR_UNIFORM, Color(rgb));
    effect.(content := EffectContent(SetUniform(colored, RADIUS_UNIFORM, Scalar(RadiusOf(config)))))
  }
}
