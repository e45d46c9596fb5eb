/** The Button component: a plain button, an internal link around a button, or an
    external anchor, chosen from its props. */
module Button {
  import opened Wrappers

  /** The `type` prop's values. */
  datatype ButtonType = ButtonKind | SubmitKind | ResetKind

  /** The props that decide what is rendered; `H` is the click handler's type. Children,
      the variant and the CSS classes are passed through unchanged and are not modelled. */
  datatype Props<H> = Props(typ: Option<ButtonType>, href: Option<string>, onClick: Option<H>)

  /** What is rendered: a `<button>` with its `type` attribute and handler, a `<Link>`
      around a `<button>`, or an `<a>` with its target and rel attributes. */
  datatype Element<H> =
    | PlainButton(typeAttr: string, onClick: Option<H>)
    | InternalLink(href: string, typeAttr: string)
    | ExternalAnchor(href: string, target: string, rel: string)

  /** `type === 'submit' ? 'submit' : 'button'`. */
  function TypeAttribute(t: Option<ButtonType>): (r: string)
    ensures r == "submit" <==> t == Some(SubmitKind)
    ensures r != "submit" ==> r == "button"
  {
    if t == Some(SubmitKind) then "submit" else "button"
  }

  /** JavaScript truthiness of `href`: `undefined` and "" are falsy. */
  predicate HasHref(href: Option<string>) {
    href.Some? && href.value != ""
  }

  /** `href.startsWith('/')`. */
  predicate IsInternal(href: string) {
    |href| > 0 && href[0] == '/'
  }

  /** Button's branch selection. */
  function Render<H>(p: Props<H>): (e: Element<H>)
    ensures e.PlainButton? <==> p.onClick.Some? || !HasHref(p.href)
    ensures e.InternalLink? <==> p.onClick.None? && HasHref(p.href) && IsInternal(p.href.value)
    ensures e.ExternalAnchor? <==> p.onClick.None? && HasHref(p.href) && !IsInternal(p.href.value)
    ensures e.PlainButton? ==> e.typeAttr == TypeAttribute(p.typ) && e.onClick == p.onClick
    ensures e.InternalLink? ==> e.href == p.href.value && e.typeAttr == TypeAttribute(p.typ)
    ensures e.ExternalAnchor? ==> e.href == p.href.value && e.target == "_blank" && e.rel == "noopener noreferrer"
  {
    if p.onClick.Some? || !HasHref(p.href) then PlainButton(TypeAttribute(p.typ), p.onClick)
    else if IsInternal(p.href.value) then InternalLink(p.href.value, TypeAttribute(p.typ))
    else ExternalAnchor(p.href.value, "_blank", "noopener noreferrer")
  }

  /** A click handler wins over any `href`, and without one an empty `href` still gives
      a plain button. */
  lemma OnClickWins<H>(t: Option<ButtonType>, href: Option<string>, h: H)
    ensures Render(Props(t, href, Some(h))) == PlainButton(TypeAttribute(t), Some(h))
    ensures Render(Props<H>.Props(t, Some(""), None)) == Element<H>.PlainButton(TypeAttribute(t), None)
  {
  }
}
