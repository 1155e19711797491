/**
 * The records the app keeps (expenses, incomes, receipts, bank balances,
 * payment methods, price samples) and the two constant tables of tracked
 * supplies with their lookups.
 *
 * Optional fields (`x?: T`) are `Option<T>`; a JavaScript number that may
 * have become NaN or infinite is a `JsNum`.
 */
module FinanceTypes {
  import opened Wrappers

  /** A number as JavaScript holds it: finite, or NaN / an infinity. */
  datatype JsNum = Finite(value: real) | NotFinite

  // ---------------------------------------------------------------------------
  // Receipts
  // ---------------------------------------------------------------------------

  /** `string | number`, the type of a receipt item's id. */
  datatype ItemId = TextId(text: string) | NumberId(number: real)

  datatype ReceiptItem = ReceiptItem(
    id: ItemId,
    description: string,
    quantity: real,
    unitPrice: real,
    unitPriceCompat: Option<real>,   // the `unit_price` field kept for the extraction service
    total: real,
    isDiscount: Option<bool>,
    suggestedCategoryId: Option<string>,
    suggestedCategoryName: Option<string>,
    suspect: Option<bool>,
    rawLine: Option<string>)

  function ItemTotal(it: ReceiptItem): real {
    it.total
  }

  /**
   * The warnings a receipt can carry, by the figures their messages print:
   * the item sum against the printed total, the suspect items with their
   * values, and the mismatch against the extraction service's total.
   */
  datatype ReceiptWarning =
    | ItemsDifferFromTotal(itemsTotal: real, printedTotal: real)
    | SuspectValues(suspects: seq<(string, real)>)
    | ServiceTotalDiffers

  datatype Receipt = Receipt(
    id: string,
    storeName: string,
    cnpj: Option<string>,
    date: string,
    total: JsNum,
    items: seq<ReceiptItem>,
    rawText: string,
    rawTotalFromReceipt: Option<real>,
    itemsTotal: Option<real>,
    warnings: Option<seq<ReceiptWarning>>,
    suggestedCategory: Option<string>)

  /** One item of the standardised extraction summary. */
  datatype SummaryItem = SummaryItem(
    id: ItemId,
    description: string,
    quantity: real,
    unitPrice: Option<real>,
    total: Option<real>)

  /** `ReceiptSummary`: the standardised shape of an extraction-service response. */
  datatype ReceiptSummary = ReceiptSummary(
    store: string,
    purchaseDate: string,
    totalAmount: Option<real>,
    currency: Option<string>,
    items: seq<SummaryItem>,
    suggestedCategory: Option<string>)

  // ---------------------------------------------------------------------------
  // Expenses, incomes, banks and payment methods
  // ---------------------------------------------------------------------------

  datatype ExpenseStatus = Pendente | Paga

  /** Everything of an expense except its id and creation time. */
  datatype ExpenseInfo = ExpenseInfo(
    date: string,
    description: string,
    amount: real,
    category: string,
    categoryId: Option<string>,
    paymentMethodId: Option<string>,
    isFixed: bool,
    isRecurring: bool,
    dueDate: Option<string>,
    recurrenceDay: Option<int>,
    status: ExpenseStatus,
    receiptId: Option<string>,
    isReceipt: Option<bool>,
    receiptStore: Option<string>,
    receiptItems: Option<seq<ReceiptItem>>)

  datatype Expense = Expense(id: string, createdAt: string, info: ExpenseInfo)

  datatype Income = Income(id: string, date: string, description: string, amount: real, source: string, createdAt: string)

  datatype BankAccount = BankAccount(id: string, name: string, institution: Option<string>, color: Option<string>, createdAt: string)

  /** A balance of one bank in one month (1-12) of one year. */
  datatype BankBalance = BankBalance(
    id: string,
    bankId: string,
    year: int,
    month: int,
    balance: real,
    createdAt: string,
    updatedAt: string)

  datatype PaymentMethodType = Dinheiro | Pix | Debito | Credito | Outro

  datatype PaymentMethod = PaymentMethod(
    id: string,
    name: string,
    kind: PaymentMethodType,
    color: Option<string>,
    description: Option<string>,
    active: bool,
    createdAt: string,
    updatedAt: Option<string>)

  // ---------------------------------------------------------------------------
  // Supplies whose prices are researched
  // ---------------------------------------------------------------------------

  datatype SupplyCategory = CarneBovina | CarneFrango | CarneSuina | Ovos | Queijo | Gasolina

  /** The fourteen listed variants, and `custom_<suffix>` for the user's own. */
  datatype SupplyVariantId =
    | MioloPaleta | Contrafile | Musculo
    | FrangoFilePeito | FrangoCoxa | FrangoSobrecoxa
    | SuinaPernil | SuinaLombo
    | Ovos20un | Ovos30un
    | QueijoMussarela | QueijoPrato
    | GasolinaComum | GasolinaAditivada
    | Custom(suffix: string)

  datatype SupplyVariant = SupplyVariant(id: SupplyVariantId, category: SupplyCategory, name: string, unit: string)

  datatype SupplyPriceSample = SupplyPriceSample(
    id: string,
    variantId: SupplyVariantId,
    category: SupplyCategory,
    date: string,
    price: real,
    place: Option<string>,
    createdAt: string)

  /** `SUPPLY_VARIANTS`, in table order. */
  const SupplyVariants: seq<SupplyVariant> := [
    SupplyVariant(MioloPaleta, CarneBovina, "Miolo da paleta", "kg"),
    SupplyVariant(Contrafile, CarneBovina, "Contrafil\U{00E9}", "kg"),
    SupplyVariant(Musculo, CarneBovina, "M\U{00FA}sculo", "kg"),
    SupplyVariant(FrangoFilePeito, CarneFrango, "Fil\U{00E9} de peito", "kg"),
    SupplyVariant(FrangoCoxa, CarneFrango, "Coxa", "kg"),
    SupplyVariant(FrangoSobrecoxa, CarneFrango, "Sobrecoxa", "kg"),
    SupplyVariant(SuinaPernil, CarneSuina, "Pernil", "kg"),
    SupplyVariant(SuinaLombo, CarneSuina, "Lombo", "kg"),
    SupplyVariant(Ovos20un, Ovos, "Ovos \U{2013} cartela 20 un", "cartela 20"),
    SupplyVariant(Ovos30un, Ovos, "Ovos \U{2013} cartela 30 un", "cartela 30"),
    SupplyVariant(QueijoMussarela, Queijo, "Queijo mussarela", "kg"),
    SupplyVariant(QueijoPrato, Queijo, "Queijo prato", "kg"),
    SupplyVariant(GasolinaComum, Gasolina, "Gasolina comum", "litro"),
    SupplyVariant(GasolinaAditivada, Gasolina, "Gasolina aditivada", "litro")
  ]

  /** `table.find(v => v.id === id)` */
  function FindVariant(table: seq<SupplyVariant>, id: SupplyVariantId): Option<SupplyVariant> {
    if table == [] then None
    else if table[0].id == id then Some(table[0])
    else FindVariant(table[1..], id)
  }

  /** `table.filter(v => v.category === category)` */
  function VariantsOf(table: seq<SupplyVariant>, category: SupplyCategory): seq<SupplyVariant> {
    if table == [] then []
    else (if table[0].category == category then [table[0]] else []) + VariantsOf(table[1..], category)
  }

  /** `getVariantById` */
  function GetVariantById(id: SupplyVariantId): Option<SupplyVariant> {
    FindVariant(SupplyVariants, id)
  }

  /** `getVariantsByCategory` */
  function GetVariantsByCategory(category: SupplyCategory): seq<SupplyVariant> {
    VariantsOf(SupplyVariants, category)
  }

  /** `find` gives the first entry with the id, and nothing only when no entry has it. */
  lemma {:induction false} FindVariantSpec(table: seq<SupplyVariant>, id: SupplyVariantId)
    ensures FindVariant(table, id).Some? <==> exists k | 0 <= k < |table| :: table[k].id == id
    ensures FindVariant(table, id).Some? ==>
      exists k | 0 <= k < |table| ::
        FindVariant(table, id).value == table[k] && table[k].id == id &&
        forall j | 0 <= j < k :: table[j].id != id
  {
    if table != [] && table[0].id != id {
      FindVariantSpec(table[1..], id);
      var r := FindVariant(table, id);
      if r.Some? {
        var k :| 0 <= k < |table[1..]| && r.value == table[1..][k] && table[1..][k].id == id &&
          forall j | 0 <= j < k :: table[1..][j].id != id;
        assert table[k + 1] == table[1..][k];
        assert forall j | 0 <= j < k + 1 :: table[j].id != id by {
          forall j | 0 <= j < k + 1 ensures table[j].id != id {
            if j > 0 { assert table[j] == table[1..][j - 1]; }
          }
        }
      }
      if exists k | 0 <= k < |table| :: table[k].id == id {
        var k :| 0 <= k < |table| && table[k].id == id;
        assert table[1..][k - 1] == table[k];
      }
    }
  }

  /** `filter` keeps exactly the entries of the category. */
  lemma {:induction false} VariantsOfMembers(table: seq<SupplyVariant>, category: SupplyCategory)
    ensures forall v :: v in VariantsOf(table, category) <==> v in table && v.category == category
  {
    if table != [] {
      VariantsOfMembers(table[1..], category);
      assert table == [table[0]] + table[1..];
    }
  }

  /** `filter` keeps table order: it distributes over concatenation. */
  lemma {:induction false} VariantsOfAppend(a: seq<SupplyVariant>, b: seq<SupplyVariant>, category: SupplyCategory)
    ensures VariantsOf(a + b, category) == VariantsOf(a, category) + VariantsOf(b, category)
  {
    if a == [] {
      assert a + b == b;
    } else {
      assert (a + b)[1..] == a[1..] + b;
      VariantsOfAppend(a[1..], b, category);
    }
  }

  /** The entries of a category that come before a given entry come before it in the result too. */
  lemma VariantsOfPrefix(table: seq<SupplyVariant>, category: SupplyCategory, k: nat)
    requires k <= |table|
    ensures VariantsOf(table, category) == VariantsOf(table[..k], category) + VariantsOf(table[k..], category)
  {
    assert table == table[..k] + table[k..];
    VariantsOfAppend(table[..k], table[k..], category);
  }

  /** The variants' position in `SUPPLY_VARIANTS`; `Custom` ids are not listed. */
  function VariantIndex(id: SupplyVariantId): (k: nat)
    requires !id.Custom?
    ensures k < |SupplyVariants| && SupplyVariants[k].id == id
    ensures forall j | 0 <= j < k :: SupplyVariants[j].id != id
  {
    match id
    case MioloPaleta => 0
    case Contrafile => 1
    case Musculo => 2
    case FrangoFilePeito => 3
    case FrangoCoxa => 4
    case FrangoSobrecoxa => 5
    case SuinaPernil => 6
    case SuinaLombo => 7
    case Ovos20un => 8
    case Ovos30un => 9
    case QueijoMussarela => 10
    case QueijoPrato => 11
    case GasolinaComum => 12
    case GasolinaAditivada => 13
  }

  /** No entry of `SUPPLY_VARIANTS` has a custom id. */
  lemma NoCustomVariant()
    ensures forall k | 0 <= k < |SupplyVariants| :: !SupplyVariants[k].id.Custom?
  {
  }

  /** No two entries of `SUPPLY_VARIANTS` share an id. */
  lemma VariantIdsDistinct()
    ensures forall j, k | 0 <= j < k < |SupplyVariants| :: SupplyVariants[j].id != SupplyVariants[k].id
  {
    forall j, k | 0 <= j < k < |SupplyVariants|
      ensures SupplyVariants[j].id != SupplyVariants[k].id
    {
      assert VariantIndex(SupplyVariants[j].id) == j;
    }
  }

  /** `find` stops at the first entry with the id. */
  lemma {:induction false} FindVariantFirst(table: seq<SupplyVariant>, id: SupplyVariantId, k: nat)
    requires k < |table| && table[k].id == id
    requires forall j | 0 <= j < k :: table[j].id != id
    ensures FindVariant(table, id) == Some(table[k])
  {
    if k > 0 {
      assert table[1..][k - 1] == table[k];
      FindVariantFirst(table[1..], id, k - 1);
    }
  }

  /** `find` gives nothing when no entry has the id. */
  lemma {:induction false} FindVariantNone(table: seq<SupplyVariant>, id: SupplyVariantId)
    requires forall j | 0 <= j < |table| :: table[j].id != id
    ensures FindVariant(table, id) == None
  {
    if table != [] {
      FindVariantNone(table[1..], id);
    }
  }

  /** Every id but the custom ones is listed, and `getVariantById` finds its entry. */
  lemma GetVariantByIdListed(id: SupplyVariantId)
    ensures id.Custom? <==> GetVariantById(id).None?
    ensures !id.Custom? ==> GetVariantById(id) == Some(SupplyVariants[VariantIndex(id)])
  {
    if id.Custom? {
      NoCustomVariant();
      FindVariantNone(SupplyVariants, id);
    } else {
      FindVariantFirst(SupplyVariants, id, VariantIndex(id));
    }
  }

  // ---------------------------------------------------------------------------
  // Tracked price research (the finance store's price samples)
  // ---------------------------------------------------------------------------

  datatype TrackedFamilyKey = FamCarneBovina | FamFrango | FamPorco | FamOvos | FamQueijo | FamGasolina

  datatype TrackedVariantKey =
    | CarneBovinaMioloPaleta | CarneBovinaContrafile | CarneBovinaMusculo
    | FrangoFilePeitoKey | FrangoCoxaKey | FrangoSobrecoxaKey
    | PorcoPernil | PorcoLombo
    | OvosCartela20 | OvosCartela30
    | QueijoMussarelaKey | QueijoPratoKey
    | GasolinaComumKey | GasolinaAditivadaKey

  datatype TrackedUnit = Kg | Litro | Cartela

  datatype TrackedVariantMeta = TrackedVariantMeta(
    familyKey: TrackedFamilyKey,
    variantKey: TrackedVariantKey,
    familyLabel: string,
    variantLabel: string,
    unit: TrackedUnit,
    referenceQuantity: Option<int>)

  /** The record's key, as the text the code indexes it with. */
  function KeyText(k: TrackedVariantKey): string {
    match k
    case CarneBovinaMioloPaleta => "carne_bovina_miolo_paleta"
    case CarneBovinaContrafile => "carne_bovina_contrafile"
    case CarneBovinaMusculo => "carne_bovina_musculo"
    case FrangoFilePeitoKey => "frango_file_peito"
    case FrangoCoxaKey => "frango_coxa"
    case FrangoSobrecoxaKey => "frango_sobrecoxa"
    case PorcoPernil => "porco_pernil"
    case PorcoLombo => "porco_lombo"
    case OvosCartela20 => "ovos_cartela_20"
    case OvosCartela30 => "ovos_cartela_30"
    case QueijoMussarelaKey => "queijo_mussarela"
    case QueijoPratoKey => "queijo_prato"
    case GasolinaComumKey => "gasolina_comum"
    case GasolinaAditivadaKey => "gasolina_aditivada"
  }

  function FamilyText(f: TrackedFamilyKey): string {
    match f
    case FamCarneBovina => "carne_bovina"
    case FamFrango => "frango"
    case FamPorco => "porco"
    case FamOvos => "ovos"
    case FamQueijo => "queijo"
    case FamGasolina => "gasolina"
  }

  function UnitText(u: TrackedUnit): string {
    match u
    case Kg => "kg"
    case Litro => "L"
    case Cartela => "cartela"
  }

  function Meta(f: TrackedFamilyKey, k: TrackedVariantKey, fl: string, vl: string, u: TrackedUnit): TrackedVariantMeta {
    TrackedVariantMeta(f, k, fl, vl, u, None)
  }

  /**
   * `TRACKED_VARIANTS_META`, entry by entry. The `variantKey` written inside
   * each entry is spelled out separately from the key it is filed under, as
   * in the table.
   */
  function TrackedMeta(k: TrackedVariantKey): TrackedVariantMeta {
    match k
    case CarneBovinaMioloPaleta => Meta(FamCarneBovina, CarneBovinaMioloPaleta, "Carne bovina", "Miolo da paleta", Kg)
    case CarneBovinaContrafile => Meta(FamCarneBovina, CarneBovinaContrafile, "Carne bovina", "Contrafil\U{00E9}", Kg)
    case CarneBovinaMusculo => Meta(FamCarneBovina, CarneBovinaMusculo, "Carne bovina", "M\U{00FA}sculo", Kg)
    case FrangoFilePeitoKey => Meta(FamFrango, FrangoFilePeitoKey, "Frango", "Fil\U{00E9} de peito", Kg)
    case FrangoCoxaKey => Meta(FamFrango, FrangoCoxaKey, "Frango", "Coxa", Kg)
    case FrangoSobrecoxaKey => Meta(FamFrango, FrangoSobrecoxaKey, "Frango", "Sobrecoxa", Kg)
    case PorcoPernil => Meta(FamPorco, PorcoPernil, "Carne su\U{00ED}na", "Pernil", Kg)
    case PorcoLombo => Meta(FamPorco, PorcoLombo, "Carne su\U{00ED}na", "Lombo", Kg)
    case OvosCartela20 => TrackedVariantMeta(FamOvos, OvosCartela20, "Ovos", "Cartela 20 unidades", Cartela, Some(20))
    case OvosCartela30 => TrackedVariantMeta(FamOvos, OvosCartela30, "Ovos", "Cartela 30 unidades", Cartela, Some(30))
    case QueijoMussarelaKey => Meta(FamQueijo, QueijoMussarelaKey, "Queijo", "Mu\U{00E7}arela", Kg)
    case QueijoPratoKey => Meta(FamQueijo, QueijoPratoKey, "Queijo", "Prato", Kg)
    case GasolinaComumKey => Meta(FamGasolina, GasolinaComumKey, "Gasolina", "Gasolina comum", Litro)
    case GasolinaAditivadaKey => Meta(FamGasolina, GasolinaAditivadaKey, "Gasolina", "Gasolina aditivada", Litro)
  }

  /** `TRACKED_VARIANTS_META[text]` for a key given as text; `None` for a text that is no key. */
  function MetaByText(text: string): Option<TrackedVariantMeta> {
    if text == "carne_bovina_miolo_paleta" then Some(TrackedMeta(CarneBovinaMioloPaleta))
    else if text == "carne_bovina_contrafile" then Some(TrackedMeta(CarneBovinaContrafile))
    else if text == "carne_bovina_musculo" then Some(TrackedMeta(CarneBovinaMusculo))
    else if text == "frango_file_peito" then Some(TrackedMeta(FrangoFilePeitoKey))
    else if text == "frango_coxa" then Some(TrackedMeta(FrangoCoxaKey))
    else if text == "frango_sobrecoxa" then Some(TrackedMeta(FrangoSobrecoxaKey))
    else if text == "porco_pernil" then Some(TrackedMeta(PorcoPernil))
    else if text == "porco_lombo" then Some(TrackedMeta(PorcoLombo))
    else if text == "ovos_cartela_20" then Some(TrackedMeta(OvosCartela20))
    else if text == "ovos_cartela_30" then Some(TrackedMeta(OvosCartela30))
    else if text == "queijo_mussarela" then Some(TrackedMeta(QueijoMussarelaKey))
    else if text == "queijo_prato" then Some(TrackedMeta(QueijoPratoKey))
    else if text == "gasolina_comum" then Some(TrackedMeta(GasolinaComumKey))
    else if text == "gasolina_aditivada" then Some(TrackedMeta(GasolinaAditivadaKey))
    else None
  }

  /** Every entry names the key it is filed under. */
  lemma TrackedMetaKeys(k: TrackedVariantKey)
    ensures TrackedMeta(k).variantKey == k
  {
  }

  /** Looking a key up by its text finds that key's entry. */
  lemma MetaByKeyText(k: TrackedVariantKey)
    ensures MetaByText(KeyText(k)) == Some(TrackedMeta(k))
  {
    match k
    case CarneBovinaMioloPaleta =>
    case CarneBovinaContrafile =>
    case CarneBovinaMusculo =>
    case FrangoFilePeitoKey =>
    case FrangoCoxaKey =>
    case FrangoSobrecoxaKey =>
    case PorcoPernil =>
    case PorcoLombo =>
    case OvosCartela20 =>
    case OvosCartela30 =>
    case QueijoMussarelaKey =>
    case QueijoPratoKey =>
    case GasolinaComumKey =>
    case GasolinaAditivadaKey =>
  }

  /** Only the two egg cartons carry a reference quantity: 20 and 30. */
  lemma ReferenceQuantities(k: TrackedVariantKey)
    ensures TrackedMeta(k).referenceQuantity.Some? <==> k == OvosCartela20 || k == OvosCartela30
    ensures k == OvosCartela20 ==> TrackedMeta(k).referenceQuantity == Some(20)
    ensures k == OvosCartela30 ==> TrackedMeta(k).referenceQuantity == Some(30)
  {
  }

  /** A price sample of the finance store's price research. */
  datatype TrackedPriceSample = TrackedPriceSample(
    id: string,
    familyKey: string,
    variantKey: string,
    familyLabel: string,
    variantLabel: string,
    unit: string,
    referenceQuantity: Option<int>,
    value: real,
    date: string,
    source: Option<string>,
    createdAt: string)

  /** `TrackedPriceSummary`; `None` is `null`. */
  datatype TrackedPriceSummary = TrackedPriceSummary(
    lastPrice: Option<real>,
    lastDate: Option<string>,
    previousPrice: Option<real>,
    variationAbs: Option<real>,
    variationPercent: Option<real>)
}
