/** The AI-tools catalogue page: a category filter over a fixed list of tool
    cards, each card previewing three features and choosing its actions by
    the tool's status. */
module AiTools {
  import opened Wrappers
  import opened Text
  import opened Seqs

  /** A tool's `status`. */
  datatype Status = Available | Beta | ComingSoon

  /** An entry of `aiTools`, named after its id. */
  datatype Tool =
    | FederatedLearning
    | RareDiseaseObservatory
    | BrainTumorDetection
    | ChestXrayAnalysis
    | RetinalDiseaseDetection
    | CardiacImaging
    | SkinLesionClassifier
    | MedicalImageSegmentation
    | ImageQualityAssessment
    | DiseaseProgressionPredictor
    | DicomProcessingPipeline
    | ModelDeploymentService
    | ExplainableSuite
    | SyntheticDataGenerator
    | ClinicalTrialMatching
    | RealTimeInference

  /** `aiTools`, in its order. */
  const Catalogue: seq<Tool> := [
    FederatedLearning,
    RareDiseaseObservatory,
    BrainTumorDetection,
    ChestXrayAnalysis,
    RetinalDiseaseDetection,
    CardiacImaging,
    SkinLesionClassifier,
    MedicalImageSegmentation,
    ImageQualityAssessment,
    DiseaseProgressionPredictor,
    DicomProcessingPipeline,
    ModelDeploymentService,
    ExplainableSuite,
    SyntheticDataGenerator,
    ClinicalTrialMatching,
    RealTimeInference
  ]

  /** The tool's `id`. */
  function Id(t: Tool): string
  {
    match t
    case FederatedLearning => "federated-learning"
    case RareDiseaseObservatory => "rare-disease-observatory"
    case BrainTumorDetection => "brain-tumor-detection"
    case ChestXrayAnalysis => "chest-xray-analysis"
    case RetinalDiseaseDetection => "retinal-disease-detection"
    case CardiacImaging => "cardiac-imaging-ai"
    case SkinLesionClassifier => "skin-lesion-classifier"
    case MedicalImageSegmentation => "medical-image-segmentation"
    case ImageQualityAssessment => "image-quality-assessment"
    case DiseaseProgressionPredictor => "disease-progression-predictor"
    case DicomProcessingPipeline => "dicom-processing-pipeline"
    case ModelDeploymentService => "model-deployment-service"
    case ExplainableSuite => "explainable-ai-suite"
    case SyntheticDataGenerator => "synthetic-data-generator"
    case ClinicalTrialMatching => "clinical-trial-matching"
    case RealTimeInference => "real-time-inference"
  }

  /** The tool's `title`. */
  function Title(t: Tool): string
  {
    match t
    case FederatedLearning => "Federated Learning Toolkit"
    case RareDiseaseObservatory => "Rare Disease Observatory"
    case BrainTumorDetection => "Brain Tumor Detection AI"
    case ChestXrayAnalysis => "Chest X-Ray Analysis Suite"
    case RetinalDiseaseDetection => "Retinal Disease Detection"
    case CardiacImaging => "Cardiac Imaging AI"
    case SkinLesionClassifier => "Skin Lesion Classifier"
    case MedicalImageSegmentation => "Multi-Organ Segmentation"
    case ImageQualityAssessment => "Image Quality Assessment"
    case DiseaseProgressionPredictor => "Disease Progression Predictor"
    case DicomProcessingPipeline => "DICOM Processing Pipeline"
    case ModelDeploymentService => "Model Deployment Service"
    case ExplainableSuite => "Explainable AI Suite"
    case SyntheticDataGenerator => "Synthetic Data Generator"
    case ClinicalTrialMatching => "Clinical Trial Matching AI"
    case RealTimeInference => "Real-Time Inference API"
  }

  /** The tool's `category`. */
  function Category(t: Tool): string
  {
    match t
    case FederatedLearning => "Machine Learning"
    case RareDiseaseObservatory => "Disease Analysis"
    case BrainTumorDetection => "Neuroimaging"
    case ChestXrayAnalysis => "Radiology"
    case RetinalDiseaseDetection => "Ophthalmology"
    case CardiacImaging => "Cardiology"
    case SkinLesionClassifier => "Dermatology"
    case MedicalImageSegmentation => "Image Processing"
    case ImageQualityAssessment => "Quality Control"
    case DiseaseProgressionPredictor => "Predictive Analytics"
    case DicomProcessingPipeline => "Infrastructure"
    case ModelDeploymentService => "MLOps"
    case ExplainableSuite => "Interpretability"
    case SyntheticDataGenerator => "Data Augmentation"
    case ClinicalTrialMatching => "Clinical Research"
    case RealTimeInference => "Infrastructure"
  }

  /** A list of five features. */
  function Five(a: string, b: string, c: string, d: string, e: string): (r: seq<string>)
    ensures |r| == 5
  {
    [a, b, c, d, e]
  }

  /** The tool's `features`. */
  function Features(t: Tool): seq<string>
  {
    match t
    case FederatedLearning => Five("Multi-site collaborative training", "Differential privacy built-in", "Support for PyTorch & TensorFlow", "Real-time training monitoring", "Automated model aggregation")
    case RareDiseaseObservatory => Five("Cancer detection & classification", "Skin disease analysis (melanoma, vitiligo, etc.)", "Rare genetic disorder identification", "Population-specific disease patterns", "Real-time prevalence tracking")
    case BrainTumorDetection => Five("Multi-modal MRI analysis (T1, T2, FLAIR)", "Tumor segmentation & volumetrics", "Grade classification (WHO)", "Treatment response prediction", "99.2% detection accuracy")
    case ChestXrayAnalysis => Five("TB detection (WHO-approved)", "COVID-19 screening", "Pneumonia classification", "14 pathology detection", "Severity scoring")
    case RetinalDiseaseDetection => Five("Diabetic retinopathy grading", "Glaucoma risk assessment", "AMD detection", "Retinal vessel analysis", "Referral urgency classification")
    case CardiacImaging => Five("Chamber segmentation", "Ejection fraction calculation", "Valve disease detection", "Myocardial infarction analysis", "Congenital heart disease screening")
    case SkinLesionClassifier => Five("Melanoma detection", "Basal cell carcinoma", "Squamous cell carcinoma", "12+ skin condition types", "Fitzpatrick skin type aware")
    case MedicalImageSegmentation => Five("100+ organ segmentation", "CT & MRI support", "Automatic landmark detection", "Volume & measurement tools", "DICOM RT-STRUCT export")
    case ImageQualityAssessment => Five("Artifact detection", "Motion blur assessment", "Contrast evaluation", "Positioning verification", "DICOM metadata validation")
    case DiseaseProgressionPredictor => Five("Tumor growth prediction", "Treatment response modeling", "Survival analysis", "Risk stratification", "Personalized timelines")
    case DicomProcessingPipeline => Five("DICOM de-identification", "Format conversion (NIfTI, PNG)", "Metadata extraction", "Series organization", "Batch processing")
    case ModelDeploymentService => Five("One-click deployment", "Auto-scaling", "A/B testing", "Model versioning", "Performance monitoring")
    case ExplainableSuite => Five("Grad-CAM heatmaps", "Attention visualization", "Feature importance", "Counterfactual explanations", "Clinical report generation")
    case SyntheticDataGenerator => Five("GAN-based synthesis", "Diffusion models", "Conditional generation", "Privacy-preserving", "Domain adaptation")
    case ClinicalTrialMatching => Five("Eligibility screening", "Trial recommendation", "Biomarker matching", "Geographic availability", "Automatic enrollment")
    case RealTimeInference => Five("Sub-second latency", "GPU acceleration", "Batch processing", "WebSocket streaming", "99.9% uptime SLA")
  }

  /** The tool's `status`. */
  function StatusOf(t: Tool): Status
  {
    match t
    case FederatedLearning => Available
    case RareDiseaseObservatory => Available
    case BrainTumorDetection => Available
    case ChestXrayAnalysis => Available
    case RetinalDiseaseDetection => Beta
    case CardiacImaging => Beta
    case SkinLesionClassifier => Available
    case MedicalImageSegmentation => Available
    case ImageQualityAssessment => Available
    case DiseaseProgressionPredictor => Beta
    case DicomProcessingPipeline => Available
    case ModelDeploymentService => ComingSoon
    case ExplainableSuite => Beta
    case SyntheticDataGenerator => ComingSoon
    case ClinicalTrialMatching => ComingSoon
    case RealTimeInference => Available
  }

  /** The tool's optional `apiEndpoint`. */
  function ApiEndpoint(t: Tool): Option<string>
  {
    match t
    case FederatedLearning => Some("/api/v1/federated-learning")
    case RareDiseaseObservatory => Some("/api/v1/rare-diseases")
    case BrainTumorDetection => Some("/api/v1/brain-analysis")
    case ChestXrayAnalysis => Some("/api/v1/chest-analysis")
    case RetinalDiseaseDetection => Some("/api/v1/retinal-analysis")
    case CardiacImaging => Some("/api/v1/cardiac-analysis")
    case SkinLesionClassifier => Some("/api/v1/skin-analysis")
    case MedicalImageSegmentation => Some("/api/v1/segmentation")
    case ImageQualityAssessment => Some("/api/v1/quality-check")
    case DiseaseProgressionPredictor => Some("/api/v1/progression")
    case DicomProcessingPipeline => Some("/api/v1/dicom")
    case ModelDeploymentService => None
    case ExplainableSuite => Some("/api/v1/explainability")
    case SyntheticDataGenerator => None
    case ClinicalTrialMatching => None
    case RealTimeInference => Some("/api/v1/inference")
  }

  /** The filter buttons, `categories`, in their order. */
  const Categories: seq<string> := ["All Tools", "Machine Learning", "Disease Analysis", "Radiology", "Image Processing", "Quality Control", "MLOps", "Infrastructure"]

  const AllTools := "All Tools"

  // --------------------------------------------------------------- filtering

  /** The tool belongs to the selected category. */
  function InCategory(selected: string): Tool -> bool
  {
    (t: Tool) => Category(t) == selected
  }

  /** The page's selection from a list of tools: the whole list for
      'All Tools', otherwise the tools of the selected category in list order. */
  function Select(tools: seq<Tool>, selected: string): seq<Tool>
  {
    if selected == AllTools then tools else Filter(tools, InCategory(selected))
  }

  /** `filteredTools`: the selection from the catalogue. */
  function FilteredTools(selected: string): seq<Tool>
  {
    Select(Catalogue, selected)
  }

  /** 'All Tools' keeps the list as it is; any other selection keeps, in
      order, exactly the tools of that category. */
  lemma SelectExactly(tools: seq<Tool>, selected: string)
    ensures var r := Select(tools, selected);
      && IsSubsequence(r, tools)
      && (selected == AllTools ==> r == tools)
      && (selected != AllTools ==> forall k :: 0 <= k < |r| ==> Category(r[k]) == selected)
      && (selected != AllTools ==> forall k :: 0 <= k < |tools| && Category(tools[k]) == selected ==> tools[k] in r)
  {
    if selected == AllTools {
      SubsequenceOfItself(tools);
    }
  }

  /** A listed tool is shown exactly under 'All Tools' and under its own category. */
  lemma ShownIff(tools: seq<Tool>, t: Tool, selected: string)
    requires t in tools
    ensures t in Select(tools, selected) <==> selected == AllTools || Category(t) == selected
  {
    if selected != AllTools {
      var k :| 0 <= k < |tools| && tools[k] == t;
      var r := Filter(tools, InCategory(selected));
      if t in r {
        var j :| 0 <= j < |r| && r[j] == t;
      }
    }
  }

  /** Any order-preserving selection of tools of the selected category that
      is as long as the page's selection is the page's selection. */
  lemma SelectUnique(tools: seq<Tool>, r: seq<Tool>, selected: string)
    requires selected != AllTools
    requires IsSubsequence(r, tools)
    requires forall k :: 0 <= k < |r| ==> Category(r[k]) == selected
    requires |r| == |Select(tools, selected)|
    ensures r == Select(tools, selected)
  {
    FilterUnique(r, tools, InCategory(selected));
  }

  /** A tool whose category has no filter button is shown by no button but 'All Tools'. */
  lemma UnlistedOnlyUnderAll(t: Tool, selected: string)
    requires Category(t) !in Categories && selected in Categories
    ensures t in FilteredTools(selected) <==> selected == AllTools
  {
    CatalogueHasAll(t);
    ShownIff(Catalogue, t, selected);
  }

  /** Every tool is in the catalogue. */
  lemma CatalogueHasAll(t: Tool)
    ensures t in Catalogue
  {
    match t
    case FederatedLearning => assert Catalogue[0] == t;
    case RareDiseaseObservatory => assert Catalogue[1] == t;
    case BrainTumorDetection => assert Catalogue[2] == t;
    case ChestXrayAnalysis => assert Catalogue[3] == t;
    case RetinalDiseaseDetection => assert Catalogue[4] == t;
    case CardiacImaging => assert Catalogue[5] == t;
    case SkinLesionClassifier => assert Catalogue[6] == t;
    case MedicalImageSegmentation => assert Catalogue[7] == t;
    case ImageQualityAssessment => assert Catalogue[8] == t;
    case DiseaseProgressionPredictor => assert Catalogue[9] == t;
    case DicomProcessingPipeline => assert Catalogue[10] == t;
    case ModelDeploymentService => assert Catalogue[11] == t;
    case ExplainableSuite => assert Catalogue[12] == t;
    case SyntheticDataGenerator => assert Catalogue[13] == t;
    case ClinicalTrialMatching => assert Catalogue[14] == t;
    case RealTimeInference => assert Catalogue[15] == t;
  }

  /** The tools without a filter button of their own. */
  lemma UnlistedTools(t: Tool)
    ensures Category(t) !in Categories <==>
      t in {BrainTumorDetection, RetinalDiseaseDetection, CardiacImaging, SkinLesionClassifier,
            DiseaseProgressionPredictor, ExplainableSuite, SyntheticDataGenerator, ClinicalTrialMatching}
  {
    match t
    case FederatedLearning => assert Category(t) == Categories[1];
    case RareDiseaseObservatory => assert Category(t) == Categories[2];
    case ChestXrayAnalysis => assert Category(t) == Categories[3];
    case MedicalImageSegmentation => assert Category(t) == Categories[4];
    case ImageQualityAssessment => assert Category(t) == Categories[5];
    case ModelDeploymentService => assert Category(t) == Categories[6];
    case DicomProcessingPipeline => assert Category(t) == Categories[7];
    case RealTimeInference => assert Category(t) == Categories[7];
    case _ =>
  }

  // ------------------------------------------------------------------ a card

  /** The features listed on the card: `features.slice(0, 3)`. */
  function Preview(features: seq<string>): (r: seq<string>)
    ensures |r| == if |features| < 3 then |features| else 3
    ensures r <= features
  {
    if |features| < 3 then features else features[..3]
  }

  /** The count in the "+N more features" line, present only past three features. */
  function MoreCount(features: seq<string>): (r: Option<nat>)
    ensures r.Some? <==> |features| > 3
    ensures r.Some? ==> r.value + 3 == |features|
  {
    if |features| > 3 then Some(|features| - 3) else None
  }

  /** The line under the preview. */
  function MoreLabel(n: nat): string
  {
    "+" + Decimal(n) + " more features"
  }

  /** The preview and the features it leaves out make up the list, the count
      shown is the number left out, and with no count nothing is left out. */
  lemma PreviewSplit(features: seq<string>)
    ensures var p := Preview(features);
      && p + features[|p|..] == features
      && (MoreCount(features).Some? ==> MoreCount(features).value == |features[|p|..]|)
      && (MoreCount(features).None? ==> p == features)
  {
    var p := Preview(features);
    assert p == features[..|p|];
  }

  /** A tool with five features lists three and shows "+2 more features". */
  lemma FiveFeaturesShowTwoMore(features: seq<string>)
    requires |features| == 5
    ensures Preview(features) == features[..3] && MoreCount(features) == Some(2)
    ensures MoreLabel(MoreCount(features).value) == "+2 more features"
  {
    assert Decimal(2) == "2";
  }

  /** Every tool of the catalogue lists five features. */
  lemma EveryToolHasFive(t: Tool)
    ensures |Features(t)| == 5
  {
  }

  /** So every card of the catalogue lists its first three features and
      shows "+2 more features". */
  lemma CatalogueCardsShowTwoMore(t: Tool)
    ensures |Features(t)| == 5
    ensures Preview(Features(t)) == Features(t)[..3] && MoreCount(Features(t)) == Some(2)
    ensures MoreLabel(MoreCount(Features(t)).value) == "+2 more features"
  {
    EveryToolHasFive(t);
    FiveFeaturesShowTwoMore(Features(t));
  }

  /** The card's buttons. */
  datatype Actions = TryApiAndDocs | ComingSoonDisabled

  /** Available and beta tools get 'Try API' and 'Docs'; the rest the disabled 'Coming Soon'. */
  function ActionsFor(s: Status): (r: Actions)
    ensures r == TryApiAndDocs <==> s == Available || s == Beta
    ensures r == ComingSoonDisabled <==> s == ComingSoon
  {
    match s
    case Available => TryApiAndDocs
    case Beta => TryApiAndDocs
    case ComingSoon => ComingSoonDisabled
  }

  /** The status badge's text. */
  function Badge(s: Status): string
  {
    match s
    case Available => "Available"
    case Beta => "Beta"
    case ComingSoon => "Coming Soon"
  }

  /** The endpoint line, shown exactly when the tool has an endpoint. */
  function EndpointLine(t: Tool): (r: Option<string>)
    ensures r.Some? <==> ApiEndpoint(t).Some?
    ensures r.Some? ==> r.value == ApiEndpoint(t).value
  {
    ApiEndpoint(t)
  }

  /** In the catalogue, a card shows an endpoint exactly when it offers 'Try API'. */
  lemma EndpointIffTryApi(t: Tool)
    ensures EndpointLine(t).Some? <==> ActionsFor(StatusOf(t)) == TryApiAndDocs
  {
  }
}
