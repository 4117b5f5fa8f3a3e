/** The data model of the page and its content store: the `Category`,
    `ChartDataPoint` and `FactEntry` types, the chart palette `COLORS` and the
    constant array `scienceFacts`, transcribed without the `details` bodies. */
module Facts {

  datatype Option<T> = None | Some(value: T)

  /** `Category`: the editorial categories plus the filter-only value `Todas`. */
  datatype Category = Todas | Quimica | Fisica | Astronomia | Biologia | Matematicas | General

  /** The string each category stands for on the page. */
  function Label(c: Category): string {
    match c
    case Todas => "Todas"
    case Quimica => "Química"
    case Fisica => "Física"
    case Astronomia => "Astronomía"
    case Biologia => "Biología"
    case Matematicas => "Matemáticas"
    case General => "General"
  }

  /** Distinct categories have distinct labels, so comparing categories is the
      same as comparing the strings the page compares. */
  lemma LabelInjective(a: Category, b: Category)
    ensures Label(a) == Label(b) ==> a == b
  {
  }

  datatype ChartType = Pie | Bar

  /** `ChartDataPoint`; `value` is an exact real, the page keeps a float. */
  datatype ChartPoint = ChartPoint(name: string, value: real, fill: Option<string> := None)

  /** `FactEntry` without its `details` body; the optional fields default to `None`. */
  datatype Fact = Fact(
    id: nat,
    title: string,
    category: Category,
    summary: string,
    image: Option<string> := None,
    sourceUrl: Option<string> := None,
    chartData: Option<seq<ChartPoint>> := None,
    chartType: Option<ChartType> := None,
    chartTitle: Option<string> := None)

  /** `COLORS`: the palette for chart cells that carry no colour of their own. */
  const Colors: seq<string> := ["#6366f1", "#10b981", "#f59e0b", "#ef4444", "#8b5cf6", "#ec4899", "#06b6d4"]

  /** The number of facts the header announces ("42 Hechos fascinantes del universo"). */
  const AnnouncedCount: nat := 42

  /** `scienceFacts`, in the order of the page. */
  const ScienceFacts: seq<Fact> := [
    Fact(
      id := 1,
      title := "El Elemento más abundante",
      category := Quimica,
      summary := "Depende de dónde mires: Oxígeno en la corteza, Hierro en el planeta.",
      sourceUrl := Some("https://es.wikipedia.org/wiki/Abundancia_de_los_elementos_qu%C3%ADmicos"),
      chartType := Some(Bar),
      chartTitle := Some("Abundancia en Corteza (%)"),
      chartData := Some([
        ChartPoint("Oxígeno", 46.71, Some("#3b82f6")),
        ChartPoint("Silicio", 27.69, Some("#64748b")),
        ChartPoint("Aluminio", 8.07, Some("#94a3b8")),
        ChartPoint("Hierro", 5.05, Some("#ef4444")),
        ChartPoint("Otros", 12.48, Some("#cbd5e1"))
      ])),
    Fact(
      id := 2,
      title := "Hierro: Núcleo vs Corteza",
      category := Quimica,
      summary := "El núcleo de la Tierra es casi enteramente hierro."),
    Fact(
      id := 3,
      title := "Materia Oscura y Energía Oscura",
      category := Astronomia,
      summary := "El 96% del universo es invisible para nosotros.",
      chartType := Some(Pie),
      chartTitle := Some("Composición del Universo"),
      chartData := Some([
        ChartPoint("Energía Oscura", 73.0, Some("#1e293b")),
        ChartPoint("Materia Oscura", 23.0, Some("#475569")),
        ChartPoint("Materia Visible", 4.0, Some("#facc15"))
      ])),
    Fact(
      id := 4,
      title := "Producción de Plutonio-239",
      category := Fisica,
      summary := "Cómo el Uranio se convierte en combustible nuclear.",
      image := Some("/images/fact_4.jpg")),
    Fact(
      id := 5,
      title := "Composición Atmosférica",
      category := Quimica,
      summary := "Nitrógeno (78%), Oxígeno (21%) y el resto son trazas.",
      chartType := Some(Pie),
      chartData := Some([
        ChartPoint("Nitrógeno", 78.08, Some("#60a5fa")),
        ChartPoint("Oxígeno", 20.95, Some("#34d399")),
        ChartPoint("Argón", 0.93, Some("#a78bfa")),
        ChartPoint("Otros", 0.04, Some("#f472b6"))
      ])),
    Fact(
      id := 6,
      title := "Fisión del Uranio-235",
      category := Fisica,
      summary := "Romper un átomo libera enorme energía.",
      image := Some("/images/fact_6.jpg")),
    Fact(
      id := 7,
      title := "Neutrinos Solares",
      category := Fisica,
      summary := "Billones te atraviesan sin tocarte."),
    Fact(
      id := 8,
      title := "Isótopos del Carbono",
      category := Quimica,
      summary := "Estable vs Radiactivo."),
    Fact(
      id := 9,
      title := "Cadena Protón-Protón",
      category := Astronomia,
      summary := "El motor del Sol.",
      image := Some("/images/fact_9.jpg")),
    Fact(
      id := 10,
      title := "Potasio-40",
      category := Biologia,
      summary := "Radiactividad natural en el cuerpo."),
    Fact(
      id := 11,
      title := "Formación de Carbono-14",
      category := Fisica,
      summary := "Rayos cósmicos golpeando nitrógeno."),
    Fact(
      id := 12,
      title := "Átomos vs Estrellas",
      category := Astronomia,
      summary := "La inmensidad de lo pequeño."),
    Fact(
      id := 13,
      title := "Detector IceCube",
      category := Fisica,
      summary := "Un telescopio bajo el hielo antártico.",
      image := Some("/images/fact_13.jpg")),
    Fact(
      id := 14,
      title := "Composición del Manto",
      category := Quimica,
      summary := "Silicatos de hierro y magnesio."),
    Fact(
      id := 15,
      title := "Enriquecimiento de Uranio",
      category := Fisica,
      summary := "Diferencia entre energía y armas."),
    Fact(
      id := 16,
      title := "Cadena de Desintegración",
      category := Fisica,
      summary := "Del Uranio al Plomo."),
    Fact(
      id := 17,
      title := "Tabla Periódica Radiactiva",
      category := Fisica,
      summary := "Elementos clave."),
    Fact(
      id := 18,
      title := "Misterio Alfa-Beta",
      category := Fisica,
      summary := "¿Por qué no radiación neutrón-protón?"),
    Fact(
      id := 19,
      title := "Ajedrez vs Universo",
      category := Matematicas,
      summary := "Complejidad combinatoria."),
    Fact(
      id := 20,
      title := "Longitud de Planck",
      category := Fisica,
      summary := "El píxel del universo."),
    Fact(
      id := 21,
      title := "Pirita",
      category := Quimica,
      summary := "El oro de los tontos."),
    Fact(
      id := 22,
      title := "El Mol",
      category := Quimica,
      summary := "El número de Avogadro."),
    Fact(
      id := 23,
      title := "Julios y Newtons",
      category := Fisica,
      summary := "Unidades de energía."),
    Fact(
      id := 24,
      title := "Reacciones REDOX",
      category := Quimica,
      summary := "Intercambio de electrones."),
    Fact(
      id := 25,
      title := "Masa del Nucleón",
      category := Fisica,
      summary := "La masa es energía."),
    Fact(
      id := 26,
      title := "Electronvoltio (eV)",
      category := Fisica,
      summary := "Energía a escala atómica."),
    Fact(
      id := 27,
      title := "Factor Gamma",
      category := Fisica,
      summary := "Dilatación temporal.",
      image := Some("/images/fact_27.jpg")),
    Fact(
      id := 28,
      title := "El Método Científico",
      category := General,
      summary := "Las reglas de Carl Sagan.",
      sourceUrl := Some("https://es.wikipedia.org/wiki/Cosmos:_un_viaje_personal")),
    Fact(
      id := 29,
      title := "Enantiómeros (Quiralidad)",
      category := Quimica,
      summary := "Moléculas espejo con distinto olor.",
      image := Some("/images/fact_29.jpg")),
    Fact(
      id := 30,
      title := "Distribución de Poisson",
      category := Matematicas,
      summary := "Matemática de sucesos raros.",
      image := Some("/images/fact_30.jpg")),
    Fact(
      id := 31,
      title := "Fuego de San Telmo",
      category := Fisica,
      summary := "Plasma en los barcos."),
    Fact(
      id := 32,
      title := "Efecto Corona",
      category := Fisica,
      summary := "Ionización del aire."),
    Fact(
      id := 33,
      title := "Cuerpo Humano (% Masa)",
      category := Biologia,
      summary := "Oxígeno es el rey del peso.",
      chartType := Some(Bar),
      chartData := Some([
        ChartPoint("Oxígeno", 65.0, Some("#ef4444")),
        ChartPoint("Carbono", 18.0, Some("#3b82f6")),
        ChartPoint("Hidrógeno", 10.0, Some("#eab308")),
        ChartPoint("Nitrógeno", 3.0, Some("#22c55e")),
        ChartPoint("Otros", 4.0, Some("#94a3b8"))
      ])),
    Fact(
      id := 34,
      title := "Átomos en un gramo",
      category := Quimica,
      summary := "La escala de Avogadro."),
    Fact(
      id := 35,
      title := "Cuerpo Humano (% Átomos)",
      category := Biologia,
      summary := "Hidrógeno es el rey numérico.",
      chartType := Some(Pie),
      chartData := Some([
        ChartPoint("Hidrógeno", 63.0, Some("#eab308")),
        ChartPoint("Oxígeno", 24.0, Some("#ef4444")),
        ChartPoint("Carbono", 12.0, Some("#3b82f6")),
        ChartPoint("Otros", 1.0, Some("#cbd5e1"))
      ])),
    Fact(
      id := 36,
      title := "Eppur si muove",
      category := Astronomia,
      summary := "Y sin embargo, se mueve."),
    Fact(
      id := 37,
      title := "Sistema Solar",
      category := Astronomia,
      summary := "Abundancia de elementos local.",
      image := Some("/images/fact_37.jpg")),
    Fact(
      id := 38,
      title := "Vía Láctea",
      category := Astronomia,
      summary := "Abundancia galáctica."),
    Fact(
      id := 39,
      title := "Electrólisis y Potenciales",
      category := Quimica,
      summary := "La batalla de los iones."),
    Fact(
      id := 40,
      title := "Can Mayor",
      category := Astronomia,
      summary := "Nuestra vecina más cercana."),
    Fact(
      id := 41,
      title := "Glutamato",
      category := Biologia,
      summary := "Sabor y Neurotransmisor."),
    Fact(
      id := 42,
      title := "Números Naturales",
      category := Matematicas,
      summary := "Conjuntos infinitos.")
  ]

  /** What every entry of the store is meant to satisfy: non-empty title and
      summary, an editorial category (never `Todas`), a chart type only next
      to chart data, and chart data that is non-empty with non-negative values. */
  predicate WellFormed(f: Fact) {
    && f.title != ""
    && f.summary != ""
    && f.category != Todas
    && (f.chartType.Some? ==> f.chartData.Some?)
    && (f.chartData.Some? ==>
          |f.chartData.value| > 0 && NonNegative(f.chartData.value))
  }

  /** Every value of the chart data is non-negative. */
  predicate NonNegative(data: seq<ChartPoint>) {
    data == [] || (data[0].value >= 0.0 && NonNegative(data[1..]))
  }

  /** JavaScript truthiness of an optional string: present and not empty. */
  predicate Truthy(o: Option<string>) {
    o.Some? && o.value != ""
  }

  /** Every point of the chart data carries its own non-empty colour. */
  predicate Coloured(data: seq<ChartPoint>) {
    forall k :: 0 <= k < |data| ==> Truthy(data[k].fill)
  }

  /** The store holds exactly the announced number of facts, numbered 1, 2, ...
      in order. */
  lemma StoreNumbering()
    ensures |ScienceFacts| == AnnouncedCount
    ensures forall i :: 0 <= i < |ScienceFacts| ==> ScienceFacts[i].id == i + 1
  {
    assert |ScienceFacts| == 42;
  }

  /** Every entry of the store is well formed. */
  lemma StoreWellFormed()
    ensures forall i :: 0 <= i < |ScienceFacts| ==> WellFormed(ScienceFacts[i])
  {
    StoreTexts();
    StoreShapes();
    StoreValues();
  }

  /** Every title and every summary is non-empty. */
  lemma StoreTexts()
    ensures forall i :: 0 <= i < |ScienceFacts| ==> ScienceFacts[i].title != "" && ScienceFacts[i].summary != ""
  {
    assert |ScienceFacts| == 42;
  }

  /** No entry is filed under `Todas`, a chart type comes only with chart
      data, and chart data is never an empty array. */
  lemma StoreShapes()
    ensures forall i :: 0 <= i < |ScienceFacts| ==>
      && ScienceFacts[i].category != Todas
      && (ScienceFacts[i].chartType.Some? ==> ScienceFacts[i].chartData.Some?)
      && (ScienceFacts[i].chartData.Some? ==> |ScienceFacts[i].chartData.value| > 0)
  {
    assert |ScienceFacts| == 42;
  }

  /** Every chart value is non-negative. */
  lemma StoreValues()
    ensures forall i :: 0 <= i < |ScienceFacts| && ScienceFacts[i].chartData.Some? ==>
      NonNegative(ScienceFacts[i].chartData.value)
  {
    assert |ScienceFacts| == 42;
    StoreValuesBelow21();
    StoreValuesFrom21();
  }

  /** `StoreValues` for facts 1 to 21. */
  lemma StoreValuesBelow21()
    ensures forall i :: 0 <= i < 21 && ScienceFacts[i].chartData.Some? ==>
      NonNegative(ScienceFacts[i].chartData.value)
  {
  }

  /** `StoreValues` for facts 22 to 42. */
  lemma StoreValuesFrom21()
    ensures forall i :: 21 <= i < 42 && ScienceFacts[i].chartData.Some? ==>
      NonNegative(ScienceFacts[i].chartData.value)
  {
  }

  /** Ids identify entries: two positions holding the same id are the same
      position, so equality of facts is equality of ids within the store. */
  lemma StoreIdsDistinct(i: int, j: int)
    requires 0 <= i < |ScienceFacts| && 0 <= j < |ScienceFacts|
    ensures ScienceFacts[i].id == ScienceFacts[j].id <==> i == j
    ensures ScienceFacts[i] == ScienceFacts[j] <==> i == j
  {
    StoreNumbering();
  }

  /** Fact 28 is the only entry of category `General`. */
  lemma OnlyGeneralFact()
    ensures ScienceFacts[27].id == 28 && ScienceFacts[27].category == General
    ensures forall i :: 0 <= i < |ScienceFacts| && ScienceFacts[i].category == General ==> i == 27
  {
    assert |ScienceFacts| == 42;
  }

  /** Every chart point in the store carries its own non-empty colour. */
  lemma StoreChartsColoured()
    ensures forall i :: 0 <= i < |ScienceFacts| && ScienceFacts[i].chartData.Some? ==>
      Coloured(ScienceFacts[i].chartData.value)
  {
    assert |ScienceFacts| == 42;
  }
}
