/** The label step of the plant-disease classifier's `/predict` handler:
    the request guards, the decomposition of the predicted class name into
    a plant and a disease, and the recommendation lookup with its fixed
    fallback. Everything between the guards and the label step (saving and
    preprocessing the image, running the model, taking the arg-max) is the
    abstract `infer` parameter. */
module PlantDisease {
  import opened Labels

  /** The model's output classes, by index. */
  const ClassNames: seq<string> := [
    "Apple_Apple_scab",
    "Apple_Black_rot",
    "Apple_Cedar_apple_rust",
    "Apple_healthy",
    "Blueberry_healthy",
    "Cherry(including_sour)_healthy",
    "Cherry(including_sour)_Powdery_mildew",
    "Corn(maize)_Cercospora_leaf_spot Gray_leaf_spot",
    "Corn(maize)_Common_rust",
    "Corn_(maize)_healthy",
    "Corn(maize)_Northern_Leaf_Blight",
    "Grape_Black_rot",
    "Grape_Esca(Black_Measles)",
    "Grape_healthy",
    "Grape_Leaf_blight(Isariopsis_Leaf_Spot)",
    "Orange_Haunglongbing(Citrus_greening)",
    "Peach_Bacterial_spot",
    "Peach_healthy",
    "Pepper,_bell_Bacterial_spot",
    "Pepper_bell_healthy",
    "Potato_Early_blight",
    "Potato_healthy",
    "Potato_Late_blight",
    "Raspberry_healthy",
    "Soybean_healthy",
    "Squash_Powdery_mildew",
    "Strawberry_healthy",
    "Strawberry_Leaf_scorch",
    "Tomato_Bacterial_spot",
    "Tomato_Early_blight",
    "Tomato_healthy",
    "Tomato_Late_blight",
    "Tomato_Leaf_Mold",
    "Tomato_Septoria_leaf_spot",
    "Tomato_Spider_mites Two-spotted_spider_mite",
    "Tomato_Target_Spot",
    "Tomato_Tomato_mosaic_virus",
    "Tomato_Tomato_Yellow_Leaf_Curl_Virus"
  ]

  /** The recommendations kept for some of the classes. */
  const RecommendationTable: map<string, seq<string>> := map[
    "Apple_Apple_scab" := [
      "✅ Disease: Apple Scab. This fungal disease causes dark, sunken lesions on leaves, fruit, and stems.",
      "💧 Watering: Ensure the soil is well-drained and avoid overhead watering to prevent fungal spores from splashing.",
      "🌿 Nutrients: Ensure balanced fertilization, particularly focusing on nitrogen. Soil amendments may be necessary to increase soil pH.",
      "🦠 Pest Control: Monitor for aphids and spider mites, which can spread the disease. Apply appropriate insecticides if necessary.",
      "🧴 Treatment: Apply fungicides like neem oil or sulfur-based fungicides in early spring to prevent scab development."
    ],
    "Apple_Black_rot" := [
      "✅ Disease: Black Rot. This bacterial infection causes black lesions on the fruit and can lead to fruit drop.",
      "💧 Watering: Ensure soil has good drainage, as over-watering can increase susceptibility to bacterial rot.",
      "🌿 Nutrients: Maintain high soil organic matter and balanced nitrogen levels. Avoid high phosphorus levels.",
      "🦠 Pest Control: Aphids can spread black rot. Consider using insecticidal soap or horticultural oils to manage pest populations.",
      "🧴 Treatment: Use copper-based fungicides for bacterial control and prune infected plant parts regularly to reduce disease spread."
    ],
    "Apple_Cedar_apple_rust" := [
      "✅ Disease: Cedar Apple Rust. This disease results in orange lesions on leaves and fruit.",
      "💧 Watering: Keep the soil evenly moist but avoid excessive watering, which encourages fungal growth.",
      "🌿 Nutrients: Fertilize the plant with a balanced mix, emphasizing potassium to help with disease resistance.",
      "🦠 Pest Control: The disease is spread by cedar trees. Removing nearby cedar trees can help limit infection.",
      "🧴 Treatment: Apply fungicides like mancozeb or chlorothalonil during the growing season to prevent infection."
    ],
    "Apple_healthy" := [
      "✅ Healthy Apple Tree: Ensure proper watering and sunlight exposure for optimal fruit growth.",
      "💧 Watering: Water deeply but infrequently to encourage strong root growth. Mulch around the base to conserve moisture.",
      "🌿 Nutrients: Apply a balanced fertilizer in early spring to support growth and fruit development.",
      "🦠 Pest Control: Regularly inspect for common pests like codling moths and aphids. Use organic controls like neem oil as needed.",
      "⚖️ Maintenance: Prune regularly to maintain shape and remove dead or diseased branches."
    ],
    "Blueberry_healthy" := [
      "✅ Healthy Blueberry: Blueberries thrive in acidic soil and require proper care for optimal yield.",
      "💧 Watering: Blueberries need consistent moisture. Use a drip irrigation system to keep the soil evenly moist.",
      "🌿 Nutrients: Use fertilizers designed for acid-loving plants. Avoid high-nitrogen fertilizers.",
      "🦠 Pest Control: Keep an eye out for aphids and spider mites. Apply insecticidal soap or neem oil as needed.",
      "⚖️ Maintenance: Mulch around the base to maintain soil acidity and prevent weeds."
    ],
    "Cherry(including_sour)_healthy" := [
      "✅ Healthy Cherry Tree: Cherries need a sunny spot and well-drained soil to thrive.",
      "💧 Watering: Water regularly, especially during dry spells, but avoid waterlogging as it can lead to root rot.",
      "🌿 Nutrients: Apply a balanced fertilizer with adequate nitrogen, phosphorus, and potassium. Keep soil slightly acidic.",
      "🦠 Pest Control: Monitor for pests like aphids and fruit flies. Consider using row covers to protect fruit.",
      "⚖️ Maintenance: Prune in late winter to maintain shape and remove dead or diseased branches."
    ],
    "Cherry(including_sour)_Powdery_mildew" := [
      "✅ Disease: Powdery Mildew. This fungal disease appears as a white, powdery coating on leaves and stems.",
      "💧 Watering: Avoid wetting the leaves while watering. Water at the base to reduce fungal spore spread.",
      "🌿 Nutrients: Apply a balanced fertilizer with sufficient nitrogen and potassium to promote plant health.",
      "🦠 Pest Control: Powdery mildew can be spread by aphids. Apply horticultural oils or insecticidal soap if necessary.",
      "🧴 Treatment: Use sulfur-based fungicides or neem oil for early-stage control."
    ],
    "Corn(maize)_Cercospora_leaf_spot Gray_leaf_spot" := [
      "✅ Disease: Cercospora Leaf Spot. This fungal disease causes irregular gray spots with dark borders.",
      "💧 Watering: Water early in the day to allow the leaves to dry before nightfall. Avoid wetting the foliage.",
      "🌿 Nutrients: Ensure proper nitrogen levels in the soil. Use organic matter to improve soil texture and drainage.",
      "🦠 Pest Control: Aphids and other pests can spread the disease. Monitor closely and apply insecticidal soap if needed.",
      "🧴 Treatment: Use fungicides like chlorothalonil or copper-based treatments to reduce fungal growth."
    ],
    "Corn(maize)_Common_rust" := [
      "✅ Disease: Common Rust. This fungal infection causes orange, pustular growths on the leaves and stems.",
      "💧 Watering: Ensure even watering to prevent drought stress, but avoid excessive moisture which can promote fungal growth.",
      "🌿 Nutrients: Fertilize with a balanced nitrogen-phosphorus-potassium mix. Ensure soil is not excessively compacted.",
      "🦠 Pest Control: Corn borers and aphids can spread rust. Apply appropriate insecticides as necessary.",
      "🧴 Treatment: Fungicides like tebuconazole can be used to manage common rust in corn."
    ]
  ]

  /** What `recommendation_dict.get` falls back to. */
  const DefaultRecommendations: seq<string> := [
    "✅ Ensure proper watering and sunlight.",
    "✅ Apply appropriate pesticides/fungicides.",
    "✅ Maintain proper soil health and nutrients."
  ]

  const Unknown: string := "Unknown"
  const Healthy: string := "Healthy"
  const NoFileUploaded: string := "No file uploaded"
  const NoSelectedFile: string := "No selected file"

  /** A plant name and a disease name. */
  datatype Label = Label(plant: string, disease: string)

  /** An uploaded file: its client-side name and its bytes. */
  datatype Upload = Upload(filename: string, data: seq<bv8>)

  /** The outcome of saving, preprocessing and classifying an upload: the
      arg-max class index, or an exception with its message. */
  datatype Inference = Classified(index: int) | Raised(message: string)

  /** The JSON reply: an error with its HTTP status, or the diagnosis. */
  datatype Response =
    | ErrorReply(status: nat, error: string)
    | Diagnosis(plant: string, disease: string, recommendations: seq<string>)

  /** The key under which recommendations are looked up. */
  function Key(l: Label): (k: string)
    ensures |k| == |l.plant| + 1 + |l.disease|
    ensures k[..|l.plant|] == l.plant && k[|l.plant|] == Sep && k[|l.plant| + 1..] == l.disease
  {
    l.plant + [Sep] + l.disease
  }

  /** Splits a class name at its separators: the first piece is the plant,
      the remaining pieces re-joined are the disease, and a name without a
      separator is a healthy plant. */
  function Decompose(name: string): (l: Label)
    ensures Sep in name ==> Key(l) == name
    ensures Sep in name ==> Sep !in l.plant && l.plant <= name && name[|l.plant|] == Sep
    ensures Sep !in name ==> l == Label(name, Healthy)
  {
    var pieces := Split(name);
    JoinSplit(name);
    FirstPiece(name);
    assert Sep !in name ==> pieces == [name] by {
      if Sep !in name { SplitNoSep(name); }
    }
    Label(pieces[0], if |pieces| > 1 then Join(pieces[1..]) else Healthy)
  }

  /** Decomposing the key of a label whose plant has no separator gives
      the label back; this follows from the contracts of `Decompose` and
      `Key`, which fix the plant as the text before the first separator. */
  lemma {:induction false} DecomposeKey(l: Label)
    requires Sep !in l.plant
    ensures Decompose(Key(l)) == l
  {
  }

  /** The label of a predicted class index; an index outside the class
      list is an unknown plant with an unknown disease. */
  function LabelOf(index: int): (l: Label)
    ensures !(0 <= index < |ClassNames|) ==> l == Label(Unknown, Unknown)
    ensures 0 <= index < |ClassNames| ==> Key(l) == ClassNames[index]
  {
    if 0 <= index < |ClassNames| then
      ClassNamesHaveSep(index);
      Decompose(ClassNames[index])
    else Label(Unknown, Unknown)
  }

  /** The recommendations for a label: the table's entry under its key,
      or the fixed fallback. */
  function Recommendations(l: Label): (r: seq<string>)
    ensures Key(l) in RecommendationTable ==> r == RecommendationTable[Key(l)]
    ensures Key(l) !in RecommendationTable ==> r == DefaultRecommendations
    ensures |r| >= 3
  {
    if Key(l) in RecommendationTable then RecommendationTable[Key(l)] else DefaultRecommendations
  }

  /** The `/predict` handler: the two request guards in order, then
      classification and the label step. */
  function Predict(files: map<string, Upload>, infer: Upload -> Inference): (r: Response)
    ensures "file" !in files ==> r == ErrorReply(400, NoFileUploaded)
    ensures "file" in files && files["file"].filename == "" ==> r == ErrorReply(400, NoSelectedFile)
    ensures (r.ErrorReply? && r.status == 400) <==> ("file" !in files || files["file"].filename == "")
    ensures "file" in files && files["file"].filename != "" && infer(files["file"]).Raised? ==>
              r == ErrorReply(500, infer(files["file"]).message)
  {
    if "file" !in files then ErrorReply(400, NoFileUploaded)
    else
      var upload := files["file"];
      if upload.filename == "" then ErrorReply(400, NoSelectedFile)
      else
        match infer(upload)
        case Raised(message) => ErrorReply(500, message)
        case Classified(index) =>
          var l := LabelOf(index);
          Diagnosis(l.plant, l.disease, Recommendations(l))
  }

  // ---------------------------------------------------------------------
  // Facts about the tables

  /** Every class name has a separator, so no class decomposes to the
      "Healthy" fallback. */
  lemma {:induction false} ClassNamesHaveSep(index: nat)
    requires index < |ClassNames|
    ensures Sep in ClassNames[index]
  {
  }

  /** Exactly the first nine classes have recommendations of their own. */
  lemma {:induction false} ClassesWithAdvice(index: nat)
    requires index < |ClassNames|
    ensures ClassNames[index] in RecommendationTable <==> index < 9
  {
  }

  /** An index outside the class list gets the fallback advice, since
      "Unknown_Unknown" is not a key of the table. */
  lemma {:induction false} UnknownGetsDefault(index: int)
    requires !(0 <= index < |ClassNames|)
    ensures Recommendations(LabelOf(index)) == DefaultRecommendations
  {
    assert Key(LabelOf(index)) == "Unknown_Unknown";
  }

  /** For a well-formed request classified as `index`, the reply is a
      diagnosis whose plant and disease re-join to the class name and whose
      advice is that class's table entry or the fallback; an index outside
      the class list is an unknown plant and disease with the fallback. */
  lemma {:induction false} PredictDiagnosis(files: map<string, Upload>, infer: Upload -> Inference, index: int)
    requires "file" in files && files["file"].filename != ""
    requires infer(files["file"]) == Classified(index)
    ensures Predict(files, infer).Diagnosis?
    ensures var r := Predict(files, infer);
            if 0 <= index < |ClassNames| then
              var name := ClassNames[index];
              r.plant + [Sep] + r.disease == name && Sep !in r.plant &&
              r.recommendations == (if name in RecommendationTable then RecommendationTable[name] else DefaultRecommendations)
            else
              r == Diagnosis(Unknown, Unknown, DefaultRecommendations)
  {
    if 0 <= index < |ClassNames| {
      ClassNamesHaveSep(index);
    } else {
      UnknownGetsDefault(index);
    }
  }
}
