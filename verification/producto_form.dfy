/** The product form: typed reads of an untyped product, edit-mode detection, the
    initial field values, the category options, and the submission it builds. */
module ProductoForm {
  import opened Wrappers
  import opened Text
  import opened JsonValues
  import opened Productos

  /** `getSafeNumber`: the value when it is a finite number. */
  function GetSafeNumber(v: Option<Json>): (r: Option<int>)
    ensures r.Some? <==> v.Some? && v.value.JNum? && v.value.n.Finite?
    ensures r.Some? ==> v == Some(JNum(Finite(r.value)))
  {
    match v
    case Some(JNum(Finite(x))) => Some(x)
    case _ => None
  }

  /** The guard shared by the pickers: a truthy object (arrays included). */
  predicate Holder(obj: Option<Json>)
  {
    TruthyOpt(obj) && IsObject(obj.value)
  }

  /** `pickOptionalString`. */
  function PickString(obj: Option<Json>, key: string): (r: Option<string>)
    ensures r.Some? ==> Holder(obj) && Prop(obj.value, key) == Some(JStr(r.value))
    ensures Holder(obj) && Prop(obj.value, key).Some? && Prop(obj.value, key).value.JStr? ==> r.Some?
  {
    if !Holder(obj) then None else StringProp(obj.value, key)
  }

  /** `pickOptionalNumber`. */
  function PickNumber(obj: Option<Json>, key: string): (r: Option<int>)
    ensures r.Some? <==> Holder(obj) && GetSafeNumber(Prop(obj.value, key)).Some?
    ensures r.Some? ==> Prop(obj.value, key) == Some(JNum(Finite(r.value)))
  {
    if !Holder(obj) then None else GetSafeNumber(Prop(obj.value, key))
  }

  /** `pickOptionalBoolean`. */
  function PickBool(obj: Option<Json>, key: string): (r: Option<bool>)
    ensures r.Some? ==> Holder(obj) && Prop(obj.value, key) == Some(JBool(r.value))
    ensures Holder(obj) && Prop(obj.value, key).Some? && Prop(obj.value, key).value.JBool? ==> r.Some?
  {
    if !Holder(obj) then None
    else match Prop(obj.value, key)
      case Some(JBool(b)) => Some(b)
      case _ => None
  }

  /** With no product (`null`), every picker gives `undefined`. */
  lemma PickersOnNull(key: string)
    ensures PickString(Some(JNull), key).None? && PickNumber(Some(JNull), key).None?
    ensures PickBool(Some(JNull), key).None?
    ensures PickString(None, key).None? && PickNumber(None, key).None? && PickBool(None, key).None?
  {
  }

  /** `a ?? b` over `number | undefined`. */
  function OrElse(a: Option<int>, b: Option<int>): Option<int>
  {
    if a.Some? then a else b
  }

  /** The product id: `idProducto`, else `id`, when a finite number. */
  function InitialIdProducto(initial: Option<Json>): (r: Option<int>)
    ensures PickNumber(initial, "idProducto").Some? ==> r == PickNumber(initial, "idProducto")
    ensures PickNumber(initial, "idProducto").None? ==> r == PickNumber(initial, "id")
  {
    OrElse(PickNumber(initial, "idProducto"), PickNumber(initial, "id"))
  }

  /** Edit mode: the initial product has a usable id. */
  predicate IsEdit(initial: Option<Json>)
  {
    InitialIdProducto(initial).Some?
  }

  /** Edit mode, stated on the raw product: `idProducto` or `id` is a finite number. */
  lemma IsEditIff(initial: Option<Json>)
    ensures IsEdit(initial) <==>
      Holder(initial)
      && (GetSafeNumber(Prop(initial.value, "idProducto")).Some?
          || GetSafeNumber(Prop(initial.value, "id")).Some?)
  {
  }

  /** The values the form opens with. */
  datatype FormFields = FormFields(
    sku: string, nombre: string, descripcion: string, precio: int, stock: int,
    idCategoria: Option<int>, activo: bool)

  function FormDefaults(initial: Option<Json>): (f: FormFields)
    ensures f.sku == PickString(initial, "sku").GetOr("")
    ensures f.nombre == PickString(initial, "nombre").GetOr("")
    ensures f.descripcion == PickString(initial, "descripcion").GetOr("")
    ensures f.precio == PickNumber(initial, "precio").GetOr(0)
    ensures f.stock == PickNumber(initial, "stock").GetOr(0)
    ensures f.activo == PickBool(initial, "activo").GetOr(true)
    ensures PickNumber(initial, "idCategoria").Some? ==> f.idCategoria == PickNumber(initial, "idCategoria")
    ensures PickNumber(initial, "idCategoria").None? ==> f.idCategoria == PickNumber(initial, "categoriaId")
  {
    FormFields(PickString(initial, "sku").GetOr(""), PickString(initial, "nombre").GetOr(""),
               PickString(initial, "descripcion").GetOr(""),
               PickNumber(initial, "precio").GetOr(0), PickNumber(initial, "stock").GetOr(0),
               OrElse(PickNumber(initial, "idCategoria"), PickNumber(initial, "categoriaId")),
               PickBool(initial, "activo").GetOr(true))
  }

  /** A new product starts blank, priced and stocked at zero, active, with no category. */
  lemma NewProductDefaults()
    ensures FormDefaults(None) == FormFields("", "", "", 0, 0, None, true)
    ensures !IsEdit(None)
  {
  }

  // ---------------------------------------------------------------------------
  // Category options

  datatype CategoryOption = CategoryOption(caption: string, value: int)

  /** The options one category contributes: none without a usable id. */
  function OptionsOf(c: Json): (r: seq<CategoryOption>)
    ensures |r| <= 1
    ensures |r| == 1 <==> OrElse(PickNumber(Some(c), "idCategoria"), PickNumber(Some(c), "id")).Some?
  {
    var id := OrElse(PickNumber(Some(c), "idCategoria"), PickNumber(Some(c), "id"));
    if id.None? then []
    else
      var nombre := PickString(Some(c), "nombre").GetOr("");
      [CategoryOption(nombre + " (#" + IntToString(id.value) + ")", id.value)]
  }

  /** `categorias.flatMap(...)`. */
  function CategoryOptions(cats: seq<Json>): (r: seq<CategoryOption>)
    ensures |r| <= |cats|
  {
    if |cats| == 0 then [] else OptionsOf(cats[0]) + CategoryOptions(cats[1..])
  }

  /** Options of a concatenation are the concatenated options: order is kept and each
      category is judged on its own. */
  lemma {:induction false} CategoryOptionsAppend(a: seq<Json>, b: seq<Json>)
    ensures CategoryOptions(a + b) == CategoryOptions(a) + CategoryOptions(b)
    decreases |a|
  {
    if |a| == 0 {
      assert a + b == b;
    } else {
      assert (a + b)[1..] == a[1..] + b;
      CategoryOptionsAppend(a[1..], b);
    }
  }

  /** The id a category record resolves to: a finite `idCategoria`, or else a finite `id`. */
  lemma CategoryIdResolves(c: Json, id: int)
    requires c.JObj?
    requires ("idCategoria" in c.fields && c.fields["idCategoria"] == JNum(Finite(id)))
          || (!("idCategoria" in c.fields && c.fields["idCategoria"].JNum? && c.fields["idCategoria"].n.Finite?)
              && "id" in c.fields && c.fields["id"] == JNum(Finite(id)))
    ensures OrElse(PickNumber(Some(c), "idCategoria"), PickNumber(Some(c), "id")) == Some(id)
  {
    if "idCategoria" in c.fields && c.fields["idCategoria"] == JNum(Finite(id)) {
      assert PickNumber(Some(c), "idCategoria") == Some(id);
    } else {
      assert PickNumber(Some(c), "idCategoria").None?;
      assert PickNumber(Some(c), "id") == Some(id);
    }
  }

  /** Any category record with a usable id gives exactly one option, labelled
      `nombre (#id)` and valued `id`, whatever other fields it carries. The id is a
      finite `idCategoria`, or else a finite `id`; a missing or non-string `nombre`
      leaves the label's name empty. */
  lemma CategoryOptionLabel(c: Json, id: int)
    requires c.JObj?
    requires ("idCategoria" in c.fields && c.fields["idCategoria"] == JNum(Finite(id)))
          || (!("idCategoria" in c.fields && c.fields["idCategoria"].JNum? && c.fields["idCategoria"].n.Finite?)
              && "id" in c.fields && c.fields["id"] == JNum(Finite(id)))
    ensures "nombre" in c.fields && c.fields["nombre"].JStr? ==>
      CategoryOptions([c]) == [CategoryOption(c.fields["nombre"].s + " (#" + IntToString(id) + ")", id)]
    ensures !("nombre" in c.fields && c.fields["nombre"].JStr?) ==>
      CategoryOptions([c]) == [CategoryOption(" (#" + IntToString(id) + ")", id)]
  {
    CategoryIdResolves(c, id);
    var nombre := PickString(Some(c), "nombre").GetOr("");
    var suffix := " (#" + IntToString(id) + ")";
    assert OptionsOf(c) == [CategoryOption(nombre + " (#" + IntToString(id) + ")", id)];
    assert nombre + " (#" + IntToString(id) + ")" == nombre + suffix;
    assert [c][1..] == [];
    assert CategoryOptions([c]) == OptionsOf(c);
    if "nombre" in c.fields && c.fields["nombre"].JStr? {
      assert nombre == c.fields["nombre"].s;
      assert nombre + suffix == c.fields["nombre"].s + " (#" + IntToString(id) + ")";
    } else {
      assert nombre == "";
      assert nombre + suffix == suffix;
    }
  }

  /** A category without a numeric id is dropped. */
  lemma CategoryWithoutIdDropped(c: Json)
    requires !c.JObj? || ("idCategoria" !in c.fields && "id" !in c.fields)
    ensures CategoryOptions([c]) == []
  {
    assert [c][1..] == [];
  }

  // ---------------------------------------------------------------------------
  // Submission

  /** What the form holds on submit. `None` is `undefined` or `null`. */
  datatype FormValues = FormValues(
    sku: string, nombre: string, descripcion: Option<string>, precio: Num, stock: Num,
    idCategoria: Option<Num>, activo: Option<bool>)

  /** The form's values as opened, untouched by the user. */
  function Untouched(f: FormFields): FormValues
  {
    FormValues(f.sku, f.nombre, Some(f.descripcion), Finite(f.precio), Finite(f.stock),
               if f.idCategoria.Some? then Some(Finite(f.idCategoria.value)) else None,
               Some(f.activo))
  }

  datatype Submission =
    | Invalid(message: string)
    | SubmitCreate(dto: ProductoDto)
    | SubmitUpdate(id: int, dto: ProductoDto)

  const CategoryRequired := "Categoría requerida"

  /** `onFinish` up to the dispatch: the category check, the DTO, create or update. */
  function OnFinish(v: FormValues, initial: Option<Json>): (s: Submission)
    ensures s.Invalid? <==> v.idCategoria.None?
    ensures s.Invalid? ==> s.message == CategoryRequired
    ensures s.SubmitUpdate? <==> v.idCategoria.Some? && IsEdit(initial)
    ensures s.SubmitUpdate? ==> s.id == InitialIdProducto(initial).value
    ensures !s.Invalid? ==>
      s.dto.sku == v.sku && s.dto.nombre == v.nombre && s.dto.descripcion == v.descripcion
      && s.dto.precio == v.precio && s.dto.stock == v.stock
      && s.dto.idCategoria == v.idCategoria.value && s.dto.activo == v.activo.GetOr(true)
  {
    if v.idCategoria.None? then Invalid(CategoryRequired)
    else
      var dto := ProductoDto(v.sku, v.nombre, v.descripcion, v.precio, v.stock,
                             v.idCategoria.value, v.activo.GetOr(true));
      var id := InitialIdProducto(initial);
      if id.Some? then SubmitUpdate(id.value, dto) else SubmitCreate(dto)
  }

  /** Saving an existing product without touching the form updates that product with
      the fields it was shown with. */
  lemma SaveUntouchedEdit(initial: Option<Json>)
    requires IsEdit(initial) && FormDefaults(initial).idCategoria.Some?
    ensures var f := FormDefaults(initial);
      OnFinish(Untouched(f), initial)
      == SubmitUpdate(InitialIdProducto(initial).value,
                      ProductoDto(f.sku, f.nombre, Some(f.descripcion), Finite(f.precio),
                                  Finite(f.stock), Finite(f.idCategoria.value), f.activo))
  {
  }

  /** A new product without a category is never sent. */
  lemma NewProductNeedsCategory()
    ensures OnFinish(Untouched(FormDefaults(None)), None) == Invalid(CategoryRequired)
  {
  }
}
