/** The diagnosis service: the prompt sent to the generative model, the
    capped list of image parts, and the normalisation of the model's
    answer into a diagnosis. The model call, the image download and
    `JSON.parse` are parameters: `fetch` gives an image's base64 data or
    fails, `generate` gives the answer text or fails, and `parse` gives the
    optional fields of the parsed object or fails. */
module AiService {
  import opened Basics
  import opened Text
  import opened Lists

  /** At most this many images go with a request. */
  const MaxImages: nat := 4

  datatype ProductInfo = ProductInfo(
    name: string,
    category: string,
    brand: Option<string>,
    problemDescription: string,
    images: Option<seq<string>>,
    videos: Option<seq<string>>)

  datatype Difficulty = Easy | Medium | Hard

  function DifficultyName(d: Difficulty): string {
    match d
    case Easy => "easy"
    case Medium => "medium"
    case Hard => "hard"
  }

  datatype Diagnosis = Diagnosis(
    detectedIssues: seq<string>,
    estimatedCostMin: real,
    estimatedCostMax: real,
    repairDifficulty: Difficulty,
    recommendedActions: seq<string>,
    confidence: real)

  /** The fields of the parsed answer, each possibly missing. */
  datatype ParsedDiagnosis = ParsedDiagnosis(
    detectedIssues: Option<seq<string>>,
    estimatedCostMin: Option<real>,
    estimatedCostMax: Option<real>,
    repairDifficulty: Option<string>,
    recommendedActions: Option<seq<string>>,
    confidence: Option<real>)

  /** A part of a model request. */
  datatype Part = TextPart(text: string) | InlineImage(data: string, mimeType: string)

  // ------------------------------------------------------------- JSON span

  /** The match of `/\{[\s\S]*\}/`: from the first '{' to the last '}',
      provided that '}' comes after that '{'. */
  function ExtractJson(text: string): (r: Option<string>)
    ensures r.Some? ==> |r.value| >= 2 && r.value[0] == '{' && r.value[|r.value| - 1] == '}'
  {
    var i := IndexOf(text, '{');
    var j := LastIndexOf(text, '}');
    if 0 <= i < j then Some(text[i..j + 1]) else None
  }

  /** A span is found exactly when some '{' precedes some '}'. */
  lemma ExtractJsonSomeIff(text: string)
    ensures ExtractJson(text).Some? <==>
      exists a, b :: 0 <= a < b < |text| && text[a] == '{' && text[b] == '}'
  {
    if exists a, b :: 0 <= a < b < |text| && text[a] == '{' && text[b] == '}' {
      var a, b :| 0 <= a < b < |text| && text[a] == '{' && text[b] == '}';
      assert 0 <= IndexOf(text, '{') <= a;
      assert b <= LastIndexOf(text, '}');
    }
  }

  /** The greedy match: no '{' before the span and no '}' after it. */
  lemma ExtractJsonGreedy(text: string)
    requires ExtractJson(text).Some?
    ensures exists k :: (OccursAt(text, ExtractJson(text).value, k)
      && '{' !in text[..k] && '}' !in text[k + |ExtractJson(text).value|..])
  {
    var i := IndexOf(text, '{');
    var j := LastIndexOf(text, '}');
    assert OccursAt(text, ExtractJson(text).value, i);
  }

  // ---------------------------------------------------------- normalising

  /** `v || d` for a number: a missing value or zero gives the default. */
  function OrDefault(v: Option<real>, d: real): (r: real)
    ensures v.Some? && v.value != 0.0 ==> r == v.value
    ensures v.None? || v.value == 0.0 ==> r == d
  {
    if v.Some? && v.value != 0.0 then v.value else d
  }

  /** A difficulty outside easy/medium/hard becomes medium. */
  function ParseDifficulty(s: Option<string>): (d: Difficulty)
    ensures s.Some? && s.value in ["easy", "medium", "hard"] ==> DifficultyName(d) == s.value
    ensures s.None? || s.value !in ["easy", "medium", "hard"] ==> d == Medium
  {
    if s == Some("easy") then Easy
    else if s == Some("hard") then Hard
    else Medium
  }

  /** The raw minimum cost: the parsed one, or 50 when missing or zero. */
  function RawCostMin(p: ParsedDiagnosis): real {
    OrDefault(p.estimatedCostMin, 50.0)
  }

  /** The diagnosis built from a parsed answer. The minimum cost is never
      negative; the maximum is at least the raw minimum and the raw
      maximum, hence at least the minimum whenever the raw minimum is not
      negative; confidence is clamped into [0, 1] and is 0.5 when missing or zero;
      a missing list gets its one-element default while a present list,
      even an empty one, is kept. */
  function Normalize(p: ParsedDiagnosis): (r: Diagnosis)
    ensures r.estimatedCostMin >= 0.0
    ensures r.estimatedCostMin == Max(0.0, RawCostMin(p))
    ensures r.estimatedCostMax >= RawCostMin(p) && r.estimatedCostMax >= OrDefault(p.estimatedCostMax, 150.0)
    ensures r.estimatedCostMax == RawCostMin(p) || r.estimatedCostMax == OrDefault(p.estimatedCostMax, 150.0)
    ensures RawCostMin(p) >= 0.0 ==> r.estimatedCostMax >= r.estimatedCostMin
    ensures 0.0 <= r.confidence <= 1.0
    ensures p.confidence.None? || p.confidence == Some(0.0) ==> r.confidence == 0.5
    ensures p.confidence.Some? && 0.0 < p.confidence.value <= 1.0 ==> r.confidence == p.confidence.value
    ensures p.confidence.Some? && p.confidence.value > 1.0 ==> r.confidence == 1.0
    ensures p.confidence.Some? && p.confidence.value < 0.0 ==> r.confidence == 0.0
    ensures p.detectedIssues.Some? ==> r.detectedIssues == p.detectedIssues.value
    ensures p.detectedIssues.None? ==> r.detectedIssues == ["Problème non identifié"]
    ensures p.recommendedActions.Some? ==> r.recommendedActions == p.recommendedActions.value
    ensures p.recommendedActions.None? ==> r.recommendedActions == ["Consulter un professionnel"]
    ensures r.repairDifficulty == ParseDifficulty(p.repairDifficulty)
  {
    var rawMin := RawCostMin(p);
    Diagnosis(
      p.detectedIssues.GetOr(["Problème non identifié"]),
      Max(0.0, rawMin),
      Max(rawMin, OrDefault(p.estimatedCostMax, 150.0)),
      ParseDifficulty(p.repairDifficulty),
      p.recommendedActions.GetOr(["Consulter un professionnel"]),
      Max(0.0, Min(1.0, OrDefault(p.confidence, 0.5))))
  }

  /** With a negative raw minimum the maximum falls below the minimum:
      the minimum is raised to 0 but the maximum is not. */
  lemma CostMaxBelowMinWhenRawMinNegative()
    ensures var r := Normalize(ParsedDiagnosis(None, Some(-10.0), Some(-5.0), None, None, None));
      r.estimatedCostMin == 0.0 && r.estimatedCostMax == -5.0
  {
  }

  /** The diagnosis returned whenever the answer cannot be read. */
  const Fallback: Diagnosis := Diagnosis(
    ["Diagnostic en cours d'analyse"],
    50.0,
    150.0,
    Medium,
    ["Consulter un professionnel pour un diagnostic précis"],
    0.3)

  /** `parseAIResponse`: the normalised parsed span, or the fallback when
      there is no span or it does not parse. Either way the minimum cost
      is not negative and the confidence lies in [0, 1]. */
  function ParseAIResponse(text: string, parse: string -> Option<ParsedDiagnosis>): (r: Diagnosis)
    ensures ExtractJson(text).None? ==> r == Fallback
    ensures ExtractJson(text).Some? && parse(ExtractJson(text).value).None? ==> r == Fallback
    ensures ExtractJson(text).Some? && parse(ExtractJson(text).value).Some? ==>
      r == Normalize(parse(ExtractJson(text).value).value)
    ensures r.estimatedCostMin >= 0.0 && 0.0 <= r.confidence <= 1.0
  {
    match ExtractJson(text)
    case None => Fallback
    case Some(json) =>
      match parse(json)
      case None => Fallback
      case Some(p) => Normalize(p)
  }

  /** An answer without any '{' followed by a '}' yields the fallback:
      costs 50 to 150, difficulty medium, confidence 0.3. */
  lemma NoBracesGiveFallback(text: string, parse: string -> Option<ParsedDiagnosis>)
    requires forall a, b :: 0 <= a < b < |text| ==> !(text[a] == '{' && text[b] == '}')
    ensures ParseAIResponse(text, parse) == Fallback
    ensures Fallback.estimatedCostMin == 50.0 && Fallback.estimatedCostMax == 150.0
    ensures Fallback.repairDifficulty == Medium && Fallback.confidence == 0.3
  {
    ExtractJsonSomeIff(text);
  }

  // ------------------------------------------------------------ image parts

  /** The parts for a list of image URLs: one JPEG part per image whose
      download succeeds, in order; failed downloads are skipped. */
  function ImageParts(urls: seq<string>, fetch: string -> Option<string>): (r: seq<Part>)
    ensures |r| <= |urls|
    ensures forall i :: 0 <= i < |r| ==> r[i].InlineImage? && r[i].mimeType == "image/jpeg"
    decreases |urls|
  {
    if urls == [] then []
    else
      var last := urls[|urls| - 1];
      ImageParts(urls[..|urls| - 1], fetch)
        + (match fetch(last) case Some(data) => [InlineImage(data, "image/jpeg")] case None => [])
  }

  /** When every download succeeds there is one part per URL, carrying
      that URL's data. */
  lemma {:induction false} ImagePartsAllFetched(urls: seq<string>, fetch: string -> Option<string>)
    requires forall i :: 0 <= i < |urls| ==> fetch(urls[i]).Some?
    ensures |ImageParts(urls, fetch)| == |urls|
    ensures forall i :: 0 <= i < |urls| ==> ImageParts(urls, fetch)[i] == InlineImage(fetch(urls[i]).value, "image/jpeg")
    decreases |urls|
  {
    if urls != [] {
      var init := urls[..|urls| - 1];
      ImagePartsAllFetched(init, fetch);
    }
  }

  /** `prepareImageParts`: walks the first `MaxImages` URLs and pushes a
      part for each one that downloads. */
  method PrepareImageParts(imageUrls: seq<string>, fetch: string -> Option<string>) returns (parts: seq<Part>)
    ensures parts == ImageParts(FirstN(imageUrls, MaxImages), fetch)
    ensures |parts| <= MaxImages && |parts| <= |imageUrls|
  {
    var urls := FirstN(imageUrls, MaxImages);
    parts := [];
    var i := 0;
    while i < |urls|
      invariant 0 <= i <= |urls|
      invariant parts == ImageParts(urls[..i], fetch)
    {
      assert urls[..i + 1][..i] == urls[..i];
      var data := fetch(urls[i]);
      if data.Some? {
        parts := parts + [InlineImage(data.value, "image/jpeg")];
      }
      i := i + 1;
    }
    assert urls[..i] == urls;
  }

  // ---------------------------------------------------------------- prompt

  /** `brand || 'Non spécifiée'`. */
  function BrandLabel(brand: Option<string>): (r: string)
    ensures brand.None? || brand == Some("") ==> r == "Non spécifiée"
    ensures brand.Some? && brand.value != "" ==> r == brand.value
  {
    if brand.Some? && brand.value != "" then brand.value else "Non spécifiée"
  }

  /** The media count line: empty for a missing or empty list. */
  function CountLine(files: Option<seq<string>>, what: string): string {
    if files.Some? && |files.value| > 0 then "- " + Decimal(|files.value|) + what else ""
  }

  const PromptIntro: string :=
    "\nTu es un expert en réparation d'objets électroniques et électroménagers. \n"
    + "Analyse ce produit et fournis un diagnostic détaillé.\n\nINFORMATIONS DU PRODUIT:\n"

  const PromptTasks: string :=
    "\n\nTÂCHES À EFFECTUER:\n"
    + "1. Analyse les images/vidéos pour identifier les problèmes visuels\n"
    + "2. Corrèle les problèmes visuels avec la description fournie\n"
    + "3. Estime la difficulté de réparation (easy/medium/hard)\n"
    + "4. Fournis une estimation de coût en euros\n"
    + "5. Recommande des actions spécifiques\n\n"
    + "RÉPONSE ATTENDUE (format JSON strict):\n{\n"
    + "  \"detectedIssues\": [\n    \"Problème 1 identifié\",\n    \"Problème 2 identifié\"\n  ],\n"
    + "  \"estimatedCostMin\": 50,\n  \"estimatedCostMax\": 150,\n  \"repairDifficulty\": \"medium\",\n"
    + "  \"recommendedActions\": [\n    \"Action recommandée 1\",\n    \"Action recommandée 2\"\n  ],\n"
    + "  \"confidence\": 0.85\n}\n\nIMPORTANT:\n"
    + "- Réponds UNIQUEMENT avec le JSON, sans texte supplémentaire\n"
    + "- Les coûts doivent être réalistes pour le marché français\n"
    + "- La difficulté doit être basée sur l'expertise technique requise\n"
    + "- La confiance doit être entre 0 et 1\n"
    + "- Sois précis et technique dans tes analyses\n"

  function NameLine(info: ProductInfo): string { "- Nom: " + info.name + "\n" }
  function CategoryLine(info: ProductInfo): string { "- Catégorie: " + info.category + "\n" }
  function BrandLine(info: ProductInfo): string { "- Marque: " + BrandLabel(info.brand) + "\n" }
  function ProblemLine(info: ProductInfo): string {
    "- Description du problème: " + info.problemDescription + "\n\n"
  }

  /** The product lines of the prompt, then the media count lines. */
  function ProductLines(info: ProductInfo): string {
    NameLine(info) + (CategoryLine(info) + (BrandLine(info) + (ProblemLine(info)
      + (CountLine(info.images, " image(s) fournie(s)") + ("\n" + CountLine(info.videos, " vidéo(s) fournie(s)"))))))
  }

  /** `buildDiagnosisPrompt`: the introduction, then the product lines,
      then the list of tasks. */
  function BuildDiagnosisPrompt(info: ProductInfo): (r: string)
    ensures StartsWith(r, PromptIntro)
    ensures Contains(r, ProductLines(info))
    ensures |PromptTasks| <= |r| && r[|r| - |PromptTasks|..] == PromptTasks
  {
    var r := PromptIntro + (ProductLines(info) + PromptTasks);
    assert r == PromptIntro + ProductLines(info) + PromptTasks;
    ContainsPart(PromptIntro, ProductLines(info), PromptTasks);
    assert r[..|PromptIntro|] == PromptIntro;
    r
  }

  /** Whatever the product lines include, the prompt includes. */
  lemma PromptIncludesLines(info: ProductInfo, q: string)
    requires Contains(ProductLines(info), q)
    ensures Contains(BuildDiagnosisPrompt(info), q)
  {
    ContainsBefore(ProductLines(info), PromptTasks, q);
    ContainsAfter(PromptIntro, ProductLines(info) + PromptTasks, q);
  }

  /** The prompt names the product. */
  lemma PromptNamesProduct(info: ProductInfo)
    ensures Contains(BuildDiagnosisPrompt(info), "- Nom: " + info.name + "\n")
  {
    var rest := CategoryLine(info) + (BrandLine(info) + (ProblemLine(info)
      + (CountLine(info.images, " image(s) fournie(s)") + ("\n" + CountLine(info.videos, " vidéo(s) fournie(s)")))));
    ContainsPrefix(NameLine(info), rest);
    PromptIncludesLines(info, NameLine(info));
  }

  /** The prompt names the brand (see `BrandLabel`). */
  lemma PromptNamesBrand(info: ProductInfo)
    ensures Contains(BuildDiagnosisPrompt(info), "- Marque: " + BrandLabel(info.brand) + "\n")
  {
    var afterBrand := ProblemLine(info)
      + (CountLine(info.images, " image(s) fournie(s)") + ("\n" + CountLine(info.videos, " vidéo(s) fournie(s)")));
    ContainsPrefix(BrandLine(info), afterBrand);
    ContainsAfter(CategoryLine(info), BrandLine(info) + afterBrand, BrandLine(info));
    ContainsAfter(NameLine(info), CategoryLine(info) + (BrandLine(info) + afterBrand), BrandLine(info));
    PromptIncludesLines(info, BrandLine(info));
  }

  /** The prompt counts the images when there are any. */
  lemma PromptCountsImages(info: ProductInfo)
    requires info.images.Some? && |info.images.value| > 0
    ensures Contains(BuildDiagnosisPrompt(info), "- " + Decimal(|info.images.value|) + " image(s) fournie(s)")
  {
    var imgs := CountLine(info.images, " image(s) fournie(s)");
    var vids := "\n" + CountLine(info.videos, " vidéo(s) fournie(s)");
    var afterBrand := ProblemLine(info) + (imgs + vids);
    ContainsPrefix(imgs, vids);
    ContainsAfter(ProblemLine(info), imgs + vids, imgs);
    ContainsAfter(BrandLine(info), afterBrand, imgs);
    ContainsAfter(CategoryLine(info), BrandLine(info) + afterBrand, imgs);
    ContainsAfter(NameLine(info), CategoryLine(info) + (BrandLine(info) + afterBrand), imgs);
    PromptIncludesLines(info, imgs);
  }

  // ------------------------------------------------------------- diagnosis

  const DiagnoseError: string := "Impossible de diagnostiquer le produit. Veuillez réessayer."

  /** The parts sent to the model: the prompt, then the image parts. */
  function RequestParts(info: ProductInfo, fetch: string -> Option<string>): (r: seq<Part>)
    ensures 1 <= |r| <= 1 + MaxImages
    ensures r[0] == TextPart(BuildDiagnosisPrompt(info))
    ensures forall i :: 1 <= i < |r| ==> r[i].InlineImage? && r[i].mimeType == "image/jpeg"
  {
    [TextPart(BuildDiagnosisPrompt(info))] + ImageParts(FirstN(info.images.GetOr([]), MaxImages), fetch)
  }

  /** `diagnoseProduct`: a failed model call is reported with a fixed
      message; an answer always yields a diagnosis, read by
      `ParseAIResponse`. At most `MaxImages` images go with the prompt. */
  method DiagnoseProduct(info: ProductInfo, fetch: string -> Option<string>,
                         generate: seq<Part> -> Option<string>,
                         parse: string -> Option<ParsedDiagnosis>)
    returns (r: Result<Diagnosis, string>, sent: seq<Part>)
    ensures sent == RequestParts(info, fetch) && 1 <= |sent| <= 1 + MaxImages
    ensures sent[0] == TextPart(BuildDiagnosisPrompt(info))
    ensures generate(sent).None? ==> r == Failure(DiagnoseError)
    ensures generate(sent).Some? ==> r == Success(ParseAIResponse(generate(sent).value, parse))
  {
    var prompt := BuildDiagnosisPrompt(info);
    var imageParts := PrepareImageParts(info.images.GetOr([]), fetch);
    sent := [TextPart(prompt)] + imageParts;
    match generate(sent)
    case None =>
      r := Failure(DiagnoseError);
    case Some(text) =>
      r := Success(ParseAIResponse(text, parse));
  }
}
