/**
 * The props a form leaf receives, as the object its render function
 * destructures. A prop that is absent (or `undefined`) has no key; every
 * other prop is a key bound to a value of the kind its declared TypeScript
 * type allows.
 */
module Props {
  import opened Wrappers

  /** What `component` (and Radio's `icon`) may name: an intrinsic tag such as 'label', or a component. */
  datatype ElementType = Tag(name: string) | Component(name: string)

  /** JavaScript truthiness of an element type: only the empty tag string is falsy. */
  predicate Truthy(e: ElementType) {
    !(e.Tag? && e.name == "")
  }

  /** TextArea's `variant`. */
  datatype Variant = Filled | Outlined

  /** Radio's `size`. */
  datatype Size = Small | Standard | Large

  /** A caller-supplied event listener; `throws` says whether calling it raises. */
  datatype Listener = Listener(throws: bool)

  datatype Value =
    | FlagValue(flag: bool)
    | TextValue(text: string)
    | ElementValue(element: ElementType)
    | ListenerValue(listener: Listener)
    | VariantValue(variant: Variant)
    | SizeValue(size: Size)
    | OtherValue(code: int)   // any other attribute (aria-*, style, a ref, ...), kept opaque

  type PropBag = map<string, Value>

  datatype Kind = FlagKind | TextKind | ElementKind | ListenerKind | VariantKind | SizeKind | AnyKind

  /** The declared kind of each prop name the form leaves read. */
  function KindOf(key: string): Kind {
    if key in {"focused", "hasError", "disabled", "checked"} then FlagKind
    else if key in {"id", "name", "value"} then TextKind
    else if key in {"component", "icon"} then ElementKind
    else if key in {"onFocus", "onBlur", "onChange"} then ListenerKind
    else if key == "variant" then VariantKind
    else if key == "size" then SizeKind
    else AnyKind
  }

  predicate HasKind(v: Value, k: Kind) {
    match k
    case FlagKind => v.FlagValue?
    case TextKind => v.TextValue?
    case ElementKind => v.ElementValue?
    case ListenerKind => v.ListenerValue?
    case VariantKind => v.VariantValue?
    case SizeKind => v.SizeValue?
    case AnyKind => true
  }

  /** Every prop has the kind its type declares. */
  predicate WellTyped(p: PropBag) {
    forall key :: key in p ==> HasKind(p[key], KindOf(key))
  }

  type Props = p: PropBag | WellTyped(p) witness map[]

  function FlagProp(p: Props, key: string): (r: Option<bool>)
    requires KindOf(key) == FlagKind
    ensures r.Some? <==> key in p
    ensures r.Some? ==> p[key] == FlagValue(r.value)
  {
    if key in p then Some(p[key].flag) else None
  }

  function TextProp(p: Props, key: string): (r: Option<string>)
    requires KindOf(key) == TextKind
    ensures r.Some? <==> key in p
    ensures r.Some? ==> p[key] == TextValue(r.value)
  {
    if key in p then Some(p[key].text) else None
  }

  function ElementProp(p: Props, key: string): (r: Option<ElementType>)
    requires KindOf(key) == ElementKind
    ensures r.Some? <==> key in p
    ensures r.Some? ==> p[key] == ElementValue(r.value)
  {
    if key in p then Some(p[key].element) else None
  }

  function ListenerProp(p: Props, key: string): (r: Option<Listener>)
    requires KindOf(key) == ListenerKind
    ensures r.Some? <==> key in p
    ensures r.Some? ==> p[key] == ListenerValue(r.value)
  {
    if key in p then Some(p[key].listener) else None
  }

  function VariantProp(p: Props): (r: Option<Variant>)
    ensures r.Some? <==> "variant" in p
    ensures r.Some? ==> p["variant"] == VariantValue(r.value)
  {
    if "variant" in p then Some(p["variant"].variant) else None
  }

  function SizeProp(p: Props): (r: Option<Size>)
    ensures r.Some? <==> "size" in p
    ensures r.Some? ==> p["size"] == SizeValue(r.value)
  {
    if "size" in p then Some(p["size"].size) else None
  }

  /**
   * The rest object of a destructuring `{ a, b, ...rest } = props`: every
   * prop whose name is not destructured, with its value unchanged.
   */
  function Rest(p: PropBag, consumed: set<string>): (r: PropBag)
    ensures r.Keys == p.Keys - consumed
    ensures forall key :: key in r ==> r[key] == p[key]
  {
    p - consumed
  }
}
