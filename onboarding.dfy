/**
 * The first-run onboarding: five slides per language and a slide index
 * stepped by "next", jumped by the progress dots, and left by "skip" or by
 * "next" on the last slide.
 */
module Onboarding {
  datatype Slide = Slide(icon: string, isImage: bool, title: string, subtitle: string, description: string)

  const EnglishSlides: seq<Slide> := [
    Slide("/brain-logo.png", true, "Welcome to Paz", "Your daily peace starts here",
      "A simple app to help you manage stress, track your mood, and find moments of calm."),
    Slide("/mood-icon.png", true, "Track Your Mood", "5 seconds a day",
      "Quick daily check-ins help you understand your emotional patterns over time."),
    Slide("/breathing-icon.png", true, "Breathe & Relax", "Guided breathing exercises",
      "Choose from calming, energizing, or sleep-focused breathing techniques."),
    Slide("/journal-icon.png", true, "Gratitude Journal", "Shift your perspective",
      "Write freely and capture 3 things you're grateful for each day."),
    Slide("✨", false, "You're Ready!", "Let's begin your journey",
      "Start with a quick mood check-in or explore at your own pace.")
  ]

  const SpanishSlides: seq<Slide> := [
    Slide("/brain-logo.png", true, "Bienvenido a Paz", "Tu paz diaria comienza aquí",
      "Una app simple para ayudarte a manejar el estrés, registrar tu ánimo y encontrar momentos de calma."),
    Slide("/mood-icon.png", true, "Registra Tu Ánimo", "5 segundos al día",
      "Check-ins diarios rápidos te ayudan a entender tus patrones emocionales con el tiempo."),
    Slide("/breathing-icon.png", true, "Respira y Relájate", "Ejercicios de respiración guiados",
      "Elige entre técnicas de respiración calmantes, energizantes o para dormir."),
    Slide("/journal-icon.png", true, "Diario de Gratitud", "Cambia tu perspectiva",
      "Escribe libremente y captura 3 cosas por las que estás agradecido/a cada día."),
    Slide("✨", false, "¡Estás Listo/a!", "Comencemos tu viaje",
      "Empieza con un registro rápido de ánimo o explora a tu propio ritmo.")
  ]

  /** `slides[language] || slides.en`. */
  function SlidesFor(language: string): (r: seq<Slide>)
    ensures language == "es" ==> r == SpanishSlides
    ensures language != "es" ==> r == EnglishSlides
  {
    if language == "es" then SpanishSlides else EnglishSlides
  }

  /** Both languages show five slides, the same icons in the same order, and only the last icon is not an image. */
  lemma SlideDecks(language: string)
    ensures |SlidesFor(language)| == 5
    ensures forall i :: 0 <= i < 5 ==> SlidesFor(language)[i].icon == EnglishSlides[i].icon
    ensures forall i :: 0 <= i < 5 ==> (SlidesFor(language)[i].isImage <==> i < 4)
  {
  }

  /** The primary button's text: "Get Started" on the last slide, "Next" otherwise; English only for "en". */
  function NextLabel(language: string, isLast: bool): (r: string)
    ensures language == "en" ==> r == (if isLast then "Get Started" else "Next")
    ensures language != "en" ==> r == (if isLast then "Comenzar" else "Siguiente")
  {
    if isLast then (if language == "en" then "Get Started" else "Comenzar")
    else (if language == "en" then "Next" else "Siguiente")
  }

  /** The skip button's text: "Skip" for "en", "Saltar" otherwise. */
  function SkipLabel(language: string): (r: string)
    ensures r == "Skip" <==> language == "en"
    ensures r == "Saltar" <==> language != "en"
  {
    if language == "en" then "Skip" else "Saltar"
  }

  /**
   * The slides fall back to English for every language but "es", while the
   * buttons fall back to Spanish for every language but "en": a language
   * outside the two shows English slides under Spanish buttons.
   */
  lemma MixedLanguageScreen(language: string)
    requires language != "en" && language != "es"
    ensures SlidesFor(language) == EnglishSlides
    ensures SlidesFor(language)[0].title == "Welcome to Paz" && NextLabel(language, false) == "Siguiente"
    ensures SlidesFor(language)[4].title == "You're Ready!" && NextLabel(language, true) == "Comenzar"
    ensures SkipLabel(language) == "Saltar"
  {
  }

  class OnboardingFlow {
    const language: string
    var currentSlide: nat
    /** How many times `onComplete` has been called. */
    var completions: nat

    ghost predicate Valid()
      reads this
    {
      currentSlide < |SlidesFor(language)|
    }

    constructor (lang: string)
      ensures Valid() && language == lang && currentSlide == 0 && completions == 0
    {
      language := lang;
      currentSlide := 0;
      completions := 0;
    }

    /** `isLastSlide`. */
    predicate IsLastSlide()
      reads this
      ensures IsLastSlide() <==> currentSlide == 4
    {
      currentSlide == |SlidesFor(language)| - 1
    }

    /** The skip button is shown on every slide but the last. */
    predicate SkipOffered()
      reads this
      ensures SkipOffered() <==> currentSlide != 4
    {
      !IsLastSlide()
    }

    /** `handleNext`: on to the next slide, or `onComplete` on the last one. */
    method Next()
      requires Valid()
      modifies this
      ensures Valid()
      ensures old(IsLastSlide()) ==> currentSlide == old(currentSlide) && completions == old(completions) + 1
      ensures !old(IsLastSlide()) ==> currentSlide == old(currentSlide) + 1 && completions == old(completions)
    {
      if IsLastSlide() {
        completions := completions + 1;
      } else {
        currentSlide := currentSlide + 1;
      }
    }

    /** `handleSkip`: always `onComplete`. */
    method Skip()
      requires Valid()
      modifies this
      ensures Valid() && currentSlide == old(currentSlide) && completions == old(completions) + 1
    {
      completions := completions + 1;
    }

    /** A click on progress dot `i`. */
    method JumpTo(i: nat)
      requires Valid() && i < |SlidesFor(language)|
      modifies this
      ensures Valid() && currentSlide == i && completions == old(completions)
    {
      currentSlide := i;
    }
  }

  /** Four "next" clicks reach the last slide without completing; the fifth completes. */
  method WalkThrough(language: string) returns (slideAfterFour: nat, completedAfterFour: nat, completedAfterFive: nat)
    ensures slideAfterFour == 4 && completedAfterFour == 0 && completedAfterFive == 1
  {
    SlideDecks(language);
    var flow := new OnboardingFlow(language);
    flow.Next();
    flow.Next();
    flow.Next();
    flow.Next();
    slideAfterFour, completedAfterFour := flow.currentSlide, flow.completions;
    flow.Next();
    completedAfterFive := flow.completions;
  }

  /**
   * The primary button reads "Get Started" or "Comenzar" exactly on the slide
   * where "next" completes instead of advancing, and the skip button is then
   * hidden.
   */
  lemma ButtonOnLastSlide(flow: OnboardingFlow)
    ensures NextLabel(flow.language, flow.IsLastSlide()) in {"Get Started", "Comenzar"} <==> flow.IsLastSlide()
    ensures flow.SkipOffered() <==> !flow.IsLastSlide()
  {
  }
}
