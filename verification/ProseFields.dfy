/** The tools of a native call, the shapes their arguments may have, and which fields are explanatory prose. */
module ProseFields {
  import opened Outcomes
  import opened NativeGrammar
  import opened SpanTheorems

  datatype Tool = GiftContext | ShowGifts | RecallGift | ListGifts | InspectSearch | Unregistered

  predicate IsText(value: Option<Value>) {
    value.Some? && value.value.Atom? && value.value.scalar.Str?
  }

  predicate IsList(value: Option<Value>) {
    value.Some? && value.value.Container? && !value.value.obj
  }

  function FieldNamed(args: Value, name: string): Option<Value> {
    At(args, [Key(Codes(name))])
  }

  predicate IsOneOf(step: Step, names: set<string>) {
    exists name :: name in names && step == Key(Codes(name))
  }

  predicate HasOnly(args: Value, names: set<string>)
    requires args.Container?
  {
    forall k :: 0 <= k < |args.members| ==> IsOneOf(args.members[k].step, names)
  }

  /** A list of at most `most` texts, none of them empty. */
  predicate AreProductIds(value: Option<Value>, most: nat) {
    && value.Some? && value.value.Container? && !value.value.obj && |value.value.members| <= most
    && forall k :: 0 <= k < |value.value.members| ==>
         IsText(Some(value.value.members[k].value)) && value.value.members[k].value.scalar.text != []
  }

  predicate HasTextIfAny(args: Value, name: string) {
    FieldNamed(args, name).Some? ==> IsText(FieldNamed(args, name))
  }

  /** The form of show_gifts that names products by id only. */
  predicate IsIdForm(args: Value)
    requires args.Container?
  {
    FieldNamed(args, "product_ids").Some? && HasOnly(args, {"product_ids", "message"})
  }

  /** The arguments that a registered tool takes. */
  predicate IsWellShaped(tool: Tool, args: Value)
    requires args.Container?
  {
    match tool
    case Unregistered => false
    case GiftContext => true
    case RecallGift => true
    case InspectSearch => args.members == []
    case ListGifts =>
      && HasOnly(args, {"product_ids", "format", "one_per_brand", "message"})
      && AreProductIds(FieldNamed(args, "product_ids"), 30)
      && (FieldNamed(args, "format").Some? ==>
            FieldNamed(args, "format").value in {Atom(Str(Codes("names"))), Atom(Str(Codes("brief")))})
      && (FieldNamed(args, "one_per_brand").Some? ==>
            FieldNamed(args, "one_per_brand").value.Atom? && FieldNamed(args, "one_per_brand").value.scalar.Boolean?)
      && HasTextIfAny(args, "message")
    case ShowGifts =>
      if IsIdForm(args) then AreProductIds(FieldNamed(args, "product_ids"), 3) && HasTextIfAny(args, "message")
      else
        && IsText(FieldNamed(args, "message")) && IsList(FieldNamed(args, "products"))
        && forall k :: 0 <= k < |FieldNamed(args, "products").value.members| ==>
             var product := FieldNamed(args, "products").value.members[k].value;
             product.Container? && product.obj && IsText(FieldNamed(product, "reason"))
  }

  /** The reason of some product of the list. */
  ghost predicate IsReason(args: Value, path: Path) {
    exists k: nat :: path == [Key(Codes("products")), Index(k), Key(Codes("reason"))] && At(args, [Key(Codes("products")), Index(k)]).Some?
  }

  /** The message of list_gifts and show_gifts, and the reason of every product that show_gifts describes. */
  ghost predicate IsProseField(tool: Tool, args: Value, path: Path)
    requires args.Container?
  {
    match tool
    case ListGifts => path == [Key(Codes("message"))] && At(args, path).Some?
    case ShowGifts =>
      || (path == [Key(Codes("message"))] && At(args, path).Some?)
      || (!IsIdForm(args) && IsReason(args, path))
    case _ => false
  }
}
