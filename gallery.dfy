/** The fixed table of example prompts shown under the form. */
module Gallery {
  import opened AppTypes
  import AppState

  const CatWizard := GalleryItem(1, "قطة لطيفة ترتدي قبعة ساحر وتجلس على كومة من الكتب القديمة، بأسلوب فن رقمي", "https://picsum.photos/seed/cat-wizard/300/300")
  const CyberpunkCar := GalleryItem(2, "سيارة رياضية مستقبلية تحلق فوق مدينة نيون مضيئة ليلاً، بأسلوب السايبربانك", "https://picsum.photos/seed/cyberpunk-car/300/300")
  const MagicForest := GalleryItem(3, "غابة مسحورة بأشجار متوهجة وشلالات متلألئة تحت سماء مرصعة بالنجوم", "https://picsum.photos/seed/magic-forest/300/300")
  const SpaceAstronaut := GalleryItem(4, "رائد فضاء يطفو في الفضاء ويصطاد الكواكب الصغيرة بشبكة فراشات، بأسلوب كرتوني", "https://picsum.photos/seed/space-astronaut/300/300")
  const HuskyGlasses := GalleryItem(5, "بورتريه لكلب من فصيلة الهاسكي يرتدي نظارات شمسية عاكسة، بألوان زاهية", "https://picsum.photos/seed/husky-glasses/300/300")
  const UnderwaterCity := GalleryItem(6, "مدينة تحت الماء مصنوعة من الكريستال والمرجان، تسبح فيها الأسماك المضيئة", "https://picsum.photos/seed/underwater-city/300/300")

  /** The six examples, in page order: their ids run from 1 to 6, so each is
      unique, and none has an empty prompt. */
  function Items(): (items: seq<GalleryItem>)
    ensures |items| == 6
    ensures forall i :: 0 <= i < |items| ==> items[i].id == i + 1 && |items[i].prompt| > 0
  {
    [CatWizard, CyberpunkCar, MagicForest, SpaceAstronaut, HuskyGlasses, UnderwaterCity]
  }

  /** A prompt taken from the gallery always passes the input check: the
      generate handler then stops only for a missing key. */
  lemma GalleryPromptPassesValidation(i: nat, image: Option<UploadedImage>, apiKeyPresent: bool)
    requires i < |Items()|
    ensures AppState.SubmitGuard(Items()[i].prompt, image, apiKeyPresent) ==
      if apiKeyPresent then None else Some(AppState.MissingKeyMessage)
  {
  }
}
