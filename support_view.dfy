/** The help screen's FAQ accordion: at most one answer is open at a time. */
module SupportView {
  import opened Common

  datatype Faq = Faq(question: string, answer: string)

  const Faqs: seq<Faq> := [
    Faq("¿Cómo funciona la simulación de inversiones?",
        "Nuestra plataforma utiliza datos históricos reales y modelos predictivos para simular el comportamiento de diferentes inversiones. Puedes seleccionar activos, definir el monto y período de inversión, y obtener proyecciones basadas en análisis estadísticos."),
    Faq("¿Los datos son en tiempo real?",
        "Sí, utilizamos APIs financieras para obtener datos en tiempo real de mercados globales, incluyendo precios de acciones, índices y criptomonedas."),
    Faq("¿Puedo guardar mis simulaciones?",
        "Sí, los usuarios registrados pueden guardar sus simulaciones, compararlas y recibir actualizaciones sobre el rendimiento de sus inversiones simuladas."),
    Faq("¿Qué tipo de activos puedo simular?",
        "Puedes simular inversiones en acciones de empresas globales, índices bursátiles principales, criptomonedas, ETFs y más."),
    Faq("¿Las predicciones son garantizadas?",
        "No, las simulaciones son herramientas educativas basadas en datos históricos y análisis estadísticos. Los resultados reales pueden variar y no garantizamos rendimientos específicos.")
  ]

  /** `openQuestion === index ? null : index`. */
  function Toggle(open: Option<nat>, index: nat): (next: Option<nat>)
    ensures next == None <==> open == Some(index)
    ensures next != None ==> next == Some(index)
  {
    if open == Some(index) then None else Some(index)
  }

  /**
   * The answers `faqs.map` renders from position `from` on: the answer at
   * position `i` is rendered exactly when `open` is `i`.
   */
  function AnswersFrom(open: Option<nat>, from: nat): (shown: seq<string>)
    requires from <= |Faqs|
    decreases |Faqs| - from
    ensures |shown| <= 1
    ensures |shown| == 1 <==> open.Some? && from <= open.value < |Faqs|
    ensures |shown| == 1 ==> shown[0] == Faqs[open.value].answer
  {
    if from == |Faqs| then []
    else (if open == Some(from) then [Faqs[from].answer] else []) + AnswersFrom(open, from + 1)
  }

  /** The answers the accordion renders. */
  function RenderedAnswers(open: Option<nat>): (shown: seq<string>)
    ensures |shown| <= 1
    ensures shown == [] <==> open == None || open.value >= |Faqs|
    ensures open.Some? && open.value < |Faqs| ==> shown == [Faqs[open.value].answer]
  {
    AnswersFrom(open, 0)
  }

  class Accordion {
    var openQuestion: Option<nat>

    /** Only one of the five questions can be open. */
    ghost predicate Valid()
      reads this
    {
      openQuestion.Some? ==> openQuestion.value < |Faqs|
    }

    constructor ()
      ensures Valid() && openQuestion == None
    {
      openQuestion := None;
    }

    /** A click on the question at `index`: closes it when open, otherwise opens it. */
    method Click(index: nat)
      requires Valid() && index < |Faqs|
      modifies this
      ensures Valid()
      ensures openQuestion == Toggle(old(openQuestion), index)
    {
      openQuestion := Toggle(openQuestion, index);
    }
  }
}
