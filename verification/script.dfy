/** The quiz script of the simulator: ten chat nodes sent by Nico, each with scored answer
    options, and the facts about it that the rest of the model relies on. */
module Script {
  import opened Wrappers
  import Evaluation

  /** The attachment kinds that occur in the script ('image' and 'document'). */
  datatype MediaKind = ImageMedia | DocumentMedia

  datatype Media = Media(kind: MediaKind, content: string, fileName: Option<string> := None, pages: Option<string> := None)

  /** The `style` tag of the true/false quiz buttons. */
  datatype Style = Truth | Myth

  /** One answer the learner can pick. Absent properties are `None`. */
  datatype ScriptOption = ScriptOption(
    text: string,
    score: int,
    reaction: string,
    bossMessage: Option<string> := None,
    feedback: Option<string> := None,
    media: Option<Media> := None,
    sticker: Option<string> := None,
    style: Option<Style> := None)

  /** One question of the script: Nico's prompt, its clock label, an optional attachment
      sent just before it, and the options offered for it. */
  datatype ScriptNode = ScriptNode(id: nat, time: string, text: string, media: Option<Media>, options: seq<ScriptOption>)

  const ImagePlaceholder := "dist/assets/blur.jpg"
  const AudioMessageSrc := "dist/assets/sounds/nico_audio.ogg"
  const StickerThumb := "dist/assets/sticker.png"
  const InjuryImage := "dist/assets/injury_blur.jpg"
  const SickLeaveDoc := "dist/assets/licencia_medica.pdf"

  /** The questions of the script, one constant per node. */
  const Node1 := ScriptNode(1, "08:12",
      "Te cuento po, me" + " corté la mano" + " con una lámina" + " en el taller." + " ¿Qué hago? 😰",
      Some(Media(ImageMedia, InjuryImage)),
      [ ScriptOption(
          "Avísale de" + " inmediato a tu" + " jefatura para" + " que emita la" + " DIAT y te" + " acompaño al" + " centro de la" + " mutual/ISL.", 2,
          "¡Gracias, no" + " sabía eso! Voy" + " a buscar ayuda" + " altiro.",
          bossMessage := Some("✅ Bien hecho" + " activando el" + " protocolo DIAT," + " así evitamos" + " multas y Nico" + " recibe atención" + " inmediata."),
          feedback := Some("✅ +2 pts." + " Activaste el" + " proceso de" + " denuncia y" + " atención por el" + " seguro laboral.")),
        ScriptOption(
          "Lávate, ponte" + " una venda y" + " veamos si se" + " pasa.", 0,
          "¿Seguro? Es que" + " sangra caleta…",
          bossMessage := Some("❌ ¡Ojo! Ignorar" + " un accidente" + " grave puede" + " traer sanciones" + " y agravar la" + " lesión."),
          feedback := Some("❌ 0 pts." + " Minimizas el" + " accidente y" + " retrasas" + " cobertura.")),
        ScriptOption(
          "Anda a tu" + " ISAPRE/FONASA," + " después vemos" + " lo de la DIAT.", 1,
          "¿Y no tengo que" + " hacer algo más?",
          bossMessage := Some("⚠️ Ojo, si va a" + " Isapre perdemos" + " la trazabilidad" + " laboral. Mejor" + " directo a" + " Mutual."),
          feedback := Some("🟡 +1 pt." + " Urgencia puede" + " atender, pero" + " sin DIAT no hay" + " cobertura" + " completa.")) ])

  const Node2 := ScriptNode(2, "08:15",
      "Mi jefa hoy no" + " está. ¿Sin ella" + " no se puede" + " denunciar?",
      None,
      [ ScriptOption(
          "Solo la empresa" + " puede.", 0,
          "Pucha… entonces" + " espero.",
          bossMessage := Some("❌ ¡Error!" + " Cualquier" + " testigo o el" + " mismo" + " accidentado" + " puede" + " denunciar, no" + " esperen por mí."),
          feedback := Some("❌ 0 pts. La ley" + " permite que" + " otras personas" + " denuncien" + " también.")),
        ScriptOption(
          "Tú puedes hacer" + " la DIAT y yo te" + " ayudo; igual" + " avisamos a la" + " empresa.", 2,
          "¡Ya! Gracias por" + " apoyarme.",
          bossMessage := Some("✅ Excelente" + " iniciativa. La" + " autodenuncia" + " asegura la" + " atención" + " oportuna."),
          feedback := Some("✅ +2 pts." + " Empoderas al" + " trabajador y" + " das continuidad" + " al proceso.")),
        ScriptOption(
          "Esperemos a" + " mañana.", 0,
          "¿Y si se me" + " infecta?",
          bossMessage := Some("❌ ¡Jamás" + " postergar! La" + " denuncia debe" + " ser dentro de" + " las 24 horas" + " ideales."),
          feedback := Some("❌ 0 pts." + " Posponer es" + " riesgoso y" + " puede afectar" + " cobertura.")) ])

  const Node3 := ScriptNode(3, "08:22",
      "Me duele harto." + " ¿Voy en micro o" + " pido" + " ambulancia?",
      None,
      [ ScriptOption(
          "Si hay sangrado" + " importante o" + " mareo, pide" + " traslado; si" + " no, te llevo" + " directo a la" + " mutual/ISL.", 2,
          "¡Perfecto! Mejor" + " no me la juego.",
          bossMessage := Some("✅ Muy bien" + " priorizando el" + " traslado" + " seguro. Es" + " parte de la" + " cobertura."),
          feedback := Some("✅ +2 pts. El" + " traslado forma" + " parte de las" + " prestaciones" + " médicas.")),
        ScriptOption(
          "Pasa por tu casa" + " a cambiarte y" + " después vamos.", 0,
          "¿No será perder" + " tiempo…?",
          bossMessage := Some("❌ No pierdan" + " tiempo valioso." + " La ropa da" + " igual, la salud" + " es primero."),
          feedback := Some("❌ 0 pts. Desvías" + " la urgencia y" + " dilatas la" + " atención.")),
        ScriptOption(
          "Anda a la" + " clínica más" + " cercana porque" + " es más rápida.", 1,
          "No sabía que" + " podía…",
          bossMessage := Some("⚠️ Sirve por Ley" + " de Urgencia," + " pero idealmente" + " va directo al" + " convenio para" + " no pagar extra."),
          feedback := Some("🟡 +1 pt. Es" + " válido en" + " urgencia, pero" + " debe derivarse" + " y calificar.")) ])

  const Node4 := ScriptNode(4, "10:05",
      "Me suturaron y" + " me dieron" + " indicaciones." + " ¿Esto lo pago" + " yo? 💸",
      None,
      [ ScriptOption(
          "Están cubiertos" + " procedimientos," + " medicamentos," + " curaciones y" + " controles hasta" + " tu alta.", 2,
          "¡Menos mal!" + " Pensé que iba a" + " salir caro.",
          bossMessage := Some("✅ Correcto, el" + " seguro cubre el" + " 100% de las" + " prestaciones" + " médicas."),
          feedback := Some("✅ +2 pts. Cubre" + " todo hasta" + " recuperación o" + " secuelas.")),
        ScriptOption(
          "Solo la" + " consulta; los" + " medicamentos" + " corren por tu" + " cuenta.", 0,
          "Uff, me dejaron" + " medio quebrado.",
          bossMessage := Some("❌ ¡No! Nico no" + " debe pagar" + " nada. Infórmate" + " bien sobre la" + " Ley 16.744."),
          feedback := Some("❌ 0 pts. ¡No!" + " Nico no debe" + " pagar nada." + " Infórmate bien" + " sobre la Ley" + " 16.744.")),
        ScriptOption(
          "Solo si faltas" + " al trabajo te" + " cubren.", 0,
          "¿Entonces no era" + " accidente" + " laboral?",
          bossMessage := Some("❌ Falso. La" + " cobertura" + " aplica con o" + " sin licencia" + " médica."),
          feedback := Some("❌ 0 pts. Falso." + " La cobertura" + " aplica con o" + " sin licencia" + " médica.")) ])

  const Node5 := ScriptNode(5, "10:15",
      "El doc dice que" + " quizá no" + " necesito" + " reposo. ¿Pierdo" + " beneficios?",
      None,
      [ ScriptOption(
          "Aunque no tengas" + " reposo, igual" + " tienes" + " prestaciones" + " médicas.", 2,
          "¡Ah buena! Pensé" + " que perdía" + " todo.",
          bossMessage := Some("✅ Exacto. Nico" + " vuelve a" + " trabajar pero" + " sigue con" + " tratamiento" + " cubierto."),
          feedback := Some("✅ +2 pts. La" + " cobertura" + " médica se" + " mantiene aunque" + " no haya reposo.")),
        ScriptOption(
          "Sin licencia," + " pagas todo tú.", 0,
          "Pucha, no tenía" + " idea…",
          bossMessage := Some("❌ Error grave." + " No asustes a" + " Nico, el seguro" + " sigue operando."),
          feedback := Some("❌ 0 pts. Error" + " grave. No" + " asustes a Nico," + " el seguro sigue" + " operando.")) ])

  const Node6 := ScriptNode(6, "11:40",
      "La secretaria" + " dice que la" + " empresa debe" + " tramitar la" + " licencia 5/6." + " Si no la" + " reciben, ¿qué" + " hago?",
      Some(Media(DocumentMedia, SickLeaveDoc, Some("Licencia_Medica_Nico.pdf"), Some("1 pág • PDF"))),
      [ ScriptOption(
          "La presentas" + " directamente en" + " el organismo" + " administrador;" + " si falta la" + " DIAT, la" + " hacemos.", 2,
          "¡Buena! No sabía" + " que podía" + " hacerlo" + " directo.",
          bossMessage := Some("✅ Bien resuelto." + " Si RRHH falla," + " el trabajador" + " puede gestionar" + " su licencia" + " directo."),
          feedback := Some("✅ +2 pts. Bien" + " resuelto. Si" + " RRHH falla, el" + " trabajador" + " puede gestionar" + " su licencia" + " directo.")),
        ScriptOption(
          "Llévala a la" + " ISAPRE.", 0,
          "Pero si es" + " laboral…",
          bossMessage := Some("❌ Si la llevas a" + " Isapre la van a" + " rechazar por" + " origen laboral." + " Pérdida de" + " tiempo."),
          feedback := Some("❌ 0 pts. Si la" + " llevas a Isapre" + " la van a" + " rechazar por" + " origen laboral." + " Pérdida de" + " tiempo.")),
        ScriptOption(
          "Espera a que la" + " empresa vuelva.", 0,
          "¿Y si se pasa el" + " plazo?",
          bossMessage := Some("❌ Los plazos de" + " licencia son" + " fatales. No hay" + " que esperar."),
          feedback := Some("❌ 0 pts. Los" + " plazos de" + " licencia son" + " fatales. No hay" + " que esperar.")) ])

  const Node7 := ScriptNode(7, "Martes, 08:55",
      "Voy camino a" + " control. ¿Sirve" + " que guarde" + " fotos y el" + " parte con las" + " circunstancias?",
      None,
      [ ScriptOption(
          "Sí, guarda" + " fotos, testigos" + " y documentos;" + " te ayudan a" + " acreditar" + " circunstancias" + " y trayecto si" + " aplica.", 2,
          "¡Perfecto! Tomé" + " fotos de todo.",
          sticker := Some(StickerThumb),
          media := Some(Media(ImageMedia, ImagePlaceholder)),
          bossMessage := Some("✅ Super bien." + " Esos respaldos" + " son claves si" + " la mutual" + " cuestiona el" + " origen."),
          feedback := Some("✅ +2 pts. Super" + " bien. Esos" + " respaldos son" + " claves si la" + " mutual" + " cuestiona el" + " origen.")),
        ScriptOption(
          "No hace falta," + " con la DIAT" + " basta.", 0,
          "Chuta, ya las" + " borré…",
          bossMessage := Some("❌ Mal consejo." + " Sin pruebas es" + " más difícil" + " defender el" + " caso si lo" + " rechazan."),
          feedback := Some("❌ 0 pts. Mal" + " consejo. Sin" + " pruebas es más" + " difícil" + " defender el" + " caso si lo" + " rechazan.")) ])

  const Node8 := ScriptNode(8, "12:00",
      "Oye wn, estuve" + " leyendo el" + " manual que me" + " pasaron y caché" + " unos datos que" + " en volá tú no" + " sabíai. ¿Te" + " pongo a prueba?" + " 😎",
      None,
      [ ScriptOption(
          "¡Dale! Tira los" + " datos a ver si" + " sabís tanto." + " Jajaja", 0,
          "Ya, prepárate" + " que aquí te" + " pillo fijo." + " ¡Vamos!") ])

  const Node9 := ScriptNode(9, "12:01",
      "1️⃣ ¿Sabíai que" + " si vai de la" + " pega a la casa" + " y te desviai a" + " comprar pan, te" + " sigue cubriendo" + " el seguro de" + " trayecto?",
      None,
      [ ScriptOption(
          "¡Ooh que buen" + " dato wn! No" + " tenía idea. 👍", 0,
          "❌ ¡Puta el weón!" + " Te cuentié" + " pesao' JKSADKA." + " El trayecto" + " tiene que ser" + " directo, si te" + " desviai a" + " comprar pan" + " cagaste con el" + " seguro.",
          style := Some(Truth),
          feedback := Some("❌ 0 pts. El" + " desvío por" + " motivos" + " personales" + " interrumpe la" + " cobertura de" + " trayecto.")),
        ScriptOption(
          "Chamullento ql," + " aonde la viste." + " Esa es mula. 👎", 2,
          "✅ ¡Buena! Estái" + " vivo. Es" + " chamullo: si" + " hay un desvío" + " que no sea por" + " fuerza mayor," + " el seguro no te" + " pesca.",
          style := Some(Myth),
          feedback := Some("✅ +2 pts. El" + " trayecto debe" + " ser directo y" + " no interrumpido" + " por fines" + " personales.")) ])

  const Node10 := ScriptNode(10, "12:02",
      "2️⃣ ¿Y esta? En" + " la Mutual tengo" + " que pagar la" + " atención de" + " urgencia y" + " después pedir" + " el reembolso" + " con la boleta.",
      None,
      [ ScriptOption(
          "Claro, como en" + " la farmacia." + " Verdad. 👍", 0,
          "❌ ¡Te volví a" + " pillar!" + " JSDKFJS. El" + " seguro es" + " gratuito, no" + " tení que sacar" + " ni una gamba" + " del bolsillo.",
          style := Some(Truth),
          feedback := Some("❌ 0 pts. La Ley" + " 16.744 no" + " contempla" + " copagos ni" + " reembolsos; es" + " gratuita.")),
        ScriptOption(
          "¡La mansa" + " mentira hno! No" + " se paga ni un" + " peso. 👎", 2,
          "✅ ¡Eso! La tení" + " clarita. Todo" + " el tratamiento," + " hasta los" + " remedios, son" + " gratis.",
          style := Some(Myth),
          feedback := Some("✅ +2 pts." + " Cobertura total" + " sin costo para" + " el trabajador.")) ])

  /** The script, in the order the questions are asked. */
  const GameScript: seq<ScriptNode> := [Node1, Node2, Node3, Node4, Node5, Node6, Node7, Node8, Node9, Node10]

  /** A valid index into the script: what the engine keeps in `step`. */
  predicate ValidStep(step: int) {
    0 <= step < |GameScript|
  }

  /** The best score any single option of `opts` awards (0 for no options). */
  function BestScore(opts: seq<ScriptOption>): int {
    if opts == [] then 0
    else
      var rest := BestScore(opts[1..]);
      if opts[0].score >= rest || |opts| == 1 then opts[0].score else rest
  }

  /** `BestScore` is the maximum of the options' scores: no option beats it and, when
      there are options, one of them reaches it. */
  lemma {:induction false} BestScoreIsMax(opts: seq<ScriptOption>)
    ensures forall i :: 0 <= i < |opts| ==> opts[i].score <= BestScore(opts)
    ensures opts != [] ==> exists i :: 0 <= i < |opts| && opts[i].score == BestScore(opts)
  {
    if opts != [] {
      BestScoreIsMax(opts[1..]);
      forall i | 1 <= i < |opts|
        ensures opts[i] == opts[1..][i - 1]
      {
      }
      if |opts| > 1 && opts[0].score < BestScore(opts[1..]) {
        var k :| 0 <= k < |opts[1..]| && opts[1..][k].score == BestScore(opts[1..]);
        assert opts[k + 1].score == BestScore(opts);
      } else {
        assert opts[0].score == BestScore(opts);
      }
    }
  }

  /** An option that no other option beats carries the best score. */
  lemma BestIsReached(opts: seq<ScriptOption>, k: nat)
    requires k < |opts|
    requires forall j :: 0 <= j < |opts| ==> opts[j].score <= opts[k].score
    ensures BestScore(opts) == opts[k].score
  {
    BestScoreIsMax(opts);
  }

  /** The highest score a learner can collect over `nodes`. */
  function MaxScore(nodes: seq<ScriptNode>): int {
    if nodes == [] then 0 else BestScore(nodes[0].options) + MaxScore(nodes[1..])
  }

  /** A play picks one option per node, by index. */
  predicate IsPlay(nodes: seq<ScriptNode>, play: seq<nat>) {
    |play| == |nodes| && forall i :: 0 <= i < |play| ==> play[i] < |nodes[i].options|
  }

  /** The score a play collects: the sum of the chosen options' scores. */
  function PlayScore(nodes: seq<ScriptNode>, play: seq<nat>): int
    requires IsPlay(nodes, play)
  {
    if nodes == [] then 0 else nodes[0].options[play[0]].score + PlayScore(nodes[1..], play[1..])
  }

  predicate ScoresInRange(nodes: seq<ScriptNode>) {
    forall i, j :: 0 <= i < |nodes| && 0 <= j < |nodes[i].options| ==> nodes[i].options[j].score in {0, 1, 2}
  }

  /** The facts about one question that the rest of the model relies on: it offers at
      least one option, every option scores 0, 1 or 2, and its best option scores `best`. */
  predicate NodeFacts(node: ScriptNode, best: int) {
    && |node.options| > 0
    && (forall j :: 0 <= j < |node.options| ==> node.options[j].score in {0, 1, 2})
    && BestScore(node.options) == best
  }

  lemma Node1Facts() ensures NodeFacts(Node1, 2) { BestIsReached(Node1.options, 0); }
  lemma Node2Facts() ensures NodeFacts(Node2, 2) { BestIsReached(Node2.options, 1); }
  lemma Node3Facts() ensures NodeFacts(Node3, 2) { BestIsReached(Node3.options, 0); }
  lemma Node4Facts() ensures NodeFacts(Node4, 2) { BestIsReached(Node4.options, 0); }
  lemma Node5Facts() ensures NodeFacts(Node5, 2) { BestIsReached(Node5.options, 0); }
  lemma Node6Facts() ensures NodeFacts(Node6, 2) { BestIsReached(Node6.options, 0); }
  lemma Node7Facts() ensures NodeFacts(Node7, 2) { BestIsReached(Node7.options, 0); }
  lemma Node8Facts() ensures NodeFacts(Node8, 0) { BestIsReached(Node8.options, 0); }
  lemma Node9Facts() ensures NodeFacts(Node9, 2) { BestIsReached(Node9.options, 1); }
  lemma Node10Facts() ensures NodeFacts(Node10, 2) { BestIsReached(Node10.options, 1); }

  /** Every question offers at least one option and every option scores 0, 1 or 2. */
  predicate WellFormedScript(nodes: seq<ScriptNode>) {
    && (forall i :: 0 <= i < |nodes| ==> |nodes[i].options| > 0)
    && ScoresInRange(nodes)
  }

  function SumScores(bests: seq<int>): int {
    if bests == [] then 0 else bests[0] + SumScores(bests[1..])
  }

  /** Questions with the facts `NodeFacts(g[i], bests[i])` make a well-formed script whose
      best total is the sum of the `bests`. */
  lemma {:induction false} ScriptFromQuestions(g: seq<ScriptNode>, bests: seq<int>)
    requires |g| == |bests|
    requires forall i :: 0 <= i < |g| ==> NodeFacts(g[i], bests[i])
    ensures WellFormedScript(g)
    ensures MaxScore(g) == SumScores(bests)
  {
    if g != [] {
      forall i | 0 <= i < |g[1..]|
        ensures NodeFacts(g[1..][i], bests[1..][i])
      {
        assert g[1..][i] == g[i + 1];
      }
      ScriptFromQuestions(g[1..], bests[1..]);
      forall i | 0 <= i < |g|
        ensures |g[i].options| > 0
        ensures forall j :: 0 <= j < |g[i].options| ==> g[i].options[j].score in {0, 1, 2}
      {
        if i > 0 {
          assert g[i] == g[1..][i - 1];
        }
      }
    }
  }

  /** Ten questions with the facts of the script's questions make a well-formed script
      whose best answers add up to 18. */
  lemma TenQuestions(n1: ScriptNode, n2: ScriptNode, n3: ScriptNode, n4: ScriptNode, n5: ScriptNode,
                     n6: ScriptNode, n7: ScriptNode, n8: ScriptNode, n9: ScriptNode, n10: ScriptNode)
    requires NodeFacts(n1, 2) && NodeFacts(n2, 2) && NodeFacts(n3, 2) && NodeFacts(n4, 2) && NodeFacts(n5, 2)
    requires NodeFacts(n6, 2) && NodeFacts(n7, 2) && NodeFacts(n8, 0) && NodeFacts(n9, 2) && NodeFacts(n10, 2)
    ensures WellFormedScript([n1, n2, n3, n4, n5, n6, n7, n8, n9, n10])
    ensures MaxScore([n1, n2, n3, n4, n5, n6, n7, n8, n9, n10]) == Evaluation.TotalScore
  {
    var g := [n1, n2, n3, n4, n5, n6, n7, n8, n9, n10];
    var bests := [2, 2, 2, 2, 2, 2, 2, 0, 2, 2];
    forall i | 0 <= i < |g|
      ensures NodeFacts(g[i], bests[i])
    {
      if i < 5 {
        if i == 0 {} else if i == 1 {} else if i == 2 {} else if i == 3 {} else {}
      } else {
        if i == 5 {} else if i == 6 {} else if i == 7 {} else if i == 8 {} else {}
      }
    }
    ScriptFromQuestions(g, bests);
  }

  /** The script has ten questions, every one offers at least one option, every option
      scores 0, 1 or 2, and the best answers add up to the total of 18 the evaluation
      divides by. */
  lemma ScriptWellFormed()
    ensures |GameScript| == 10
    ensures WellFormedScript(GameScript)
    ensures MaxScore(GameScript) == Evaluation.TotalScore
  {
    Node1Facts(); Node2Facts(); Node3Facts(); Node4Facts(); Node5Facts();
    Node6Facts(); Node7Facts(); Node8Facts(); Node9Facts(); Node10Facts();
    TenQuestions(Node1, Node2, Node3, Node4, Node5, Node6, Node7, Node8, Node9, Node10);
  }

  /** No play collects more than the best answers would, and none collects less than 0
      when every option scores 0, 1 or 2. */
  lemma {:induction false} PlayScoreBounds(nodes: seq<ScriptNode>, play: seq<nat>)
    requires IsPlay(nodes, play) && ScoresInRange(nodes)
    ensures 0 <= PlayScore(nodes, play) <= MaxScore(nodes)
  {
    if nodes != [] {
      assert IsPlay(nodes[1..], play[1..]);
      assert ScoresInRange(nodes[1..]) by {
        forall i, j | 0 <= i < |nodes[1..]| && 0 <= j < |nodes[1..][i].options|
          ensures nodes[1..][i].options[j].score in {0, 1, 2}
        {
          assert nodes[1..][i] == nodes[i + 1];
        }
      }
      PlayScoreBounds(nodes[1..], play[1..]);
      BestScoreIsMax(nodes[0].options);
      assert nodes[0].options[play[0]].score in {0, 1, 2};
    }
  }

  /** Over the whole script a play scores between 0 and the total of 18. */
  lemma FullPlayScore(play: seq<nat>)
    requires IsPlay(GameScript, play)
    ensures 0 <= PlayScore(GameScript, play) <= Evaluation.TotalScore
  {
    ScriptWellFormed();
    PlayScoreBounds(GameScript, play);
  }

  /** The total of 18 is reachable: choosing a best option at every node collects it. */
  lemma {:induction false} BestPlayReachesMax(nodes: seq<ScriptNode>)
    requires forall i :: 0 <= i < |nodes| ==> |nodes[i].options| > 0
    ensures exists play :: IsPlay(nodes, play) && PlayScore(nodes, play) == MaxScore(nodes)
  {
    if nodes == [] {
      assert IsPlay(nodes, []) && PlayScore(nodes, []) == 0;
    } else {
      assert forall i :: 0 <= i < |nodes[1..]| ==> nodes[1..][i] == nodes[i + 1];
      BestPlayReachesMax(nodes[1..]);
      var rest :| IsPlay(nodes[1..], rest) && PlayScore(nodes[1..], rest) == MaxScore(nodes[1..]);
      BestScoreIsMax(nodes[0].options);
      var k :| 0 <= k < |nodes[0].options| && nodes[0].options[k].score == BestScore(nodes[0].options);
      var play := [k as nat] + rest;
      assert play[1..] == rest;
      assert IsPlay(nodes, play);
    }
  }
}
