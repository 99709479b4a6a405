/** The interface language of the app (components/language-provider.tsx): the eight
    translation tables, the lookup `t` with its fall-back to the key, and the provider that
    keeps the chosen language and mirrors it into the browser's local storage. */
module Localization {
  import opened Types

  datatype Language = English | Hindi | Tamil | Telugu | Bengali | Marathi | Gujarati | Punjabi

  /** The string that names each language, as stored and as used for the table keys. */
  function LanguageName(l: Language): string
  {
    match l
    case English => "english"
    case Hindi => "hindi"
    case Tamil => "tamil"
    case Telugu => "telugu"
    case Bengali => "bengali"
    case Marathi => "marathi"
    case Gujarati => "gujarati"
    case Punjabi => "punjabi"
  }

  /** `Object.keys(translations)`, in declaration order. */
  const LanguageNames: seq<string> :=
    ["english", "hindi", "tamil", "telugu", "bengali", "marathi", "gujarati", "punjabi"]

  /** The language a stored string names: exactly the eight table keys name a language,
      each the one whose name it is. */
  function ParseLanguage(s: string): (r: Option<Language>)
    ensures r.Some? <==> s in LanguageNames
    ensures r.Some? ==> LanguageName(r.value) == s
  {
    if s == "english" then Some(English)
    else if s == "hindi" then Some(Hindi)
    else if s == "tamil" then Some(Tamil)
    else if s == "telugu" then Some(Telugu)
    else if s == "bengali" then Some(Bengali)
    else if s == "marathi" then Some(Marathi)
    else if s == "gujarati" then Some(Gujarati)
    else if s == "punjabi" then Some(Punjabi)
    else None
  }

  /** The eight `Language` values and the eight keys of `translations` correspond one to one. */
  lemma LanguageNamesMatch(l: Language)
    ensures LanguageName(l) in LanguageNames
    ensures ParseLanguage(LanguageName(l)) == Some(l)
  {
  }

  /** The keys every table defines. */
  const Keys: seq<string> :=
    ["appName", "home", "diagnose", "history", "settings", "takePicture",
     "uploadImage", "diagnosisResults", "treatments", "organicTreatments", "chemicalTreatments", "selectCrop",
     "selectLanguage", "onlineMode", "offlineMode", "loading", "noResults", "viewHistory",
     "logout", "login", "register", "welcomeMessage"]

  /** `translations[l]`. */
  function Table(l: Language): map<string, string>
  {
    match l
    case English => map[
      "appName" := "Farmers AI Assistant",
      "home" := "Home",
      "diagnose" := "Diagnose",
      "history" := "History",
      "settings" := "Settings",
      "takePicture" := "Take Picture",
      "uploadImage" := "Upload Image",
      "diagnosisResults" := "Diagnosis Results",
      "treatments" := "Treatments",
      "organicTreatments" := "Organic Treatments",
      "chemicalTreatments" := "Chemical Treatments",
      "selectCrop" := "Select Crop",
      "selectLanguage" := "Select Language",
      "onlineMode" := "Online Mode",
      "offlineMode" := "Offline Mode",
      "loading" := "Loading...",
      "noResults" := "No results found",
      "viewHistory" := "View History",
      "logout" := "Logout",
      "login" := "Login",
      "register" := "Register",
      "welcomeMessage" := "Diagnose plant diseases instantly with your camera"]
    case Hindi => map[
      "appName" := "किसान AI सहायक",
      "home" := "होम",
      "diagnose" := "निदान करें",
      "history" := "इतिहास",
      "settings" := "सेटिंग्स",
      "takePicture" := "तस्वीर लें",
      "uploadImage" := "छवि अपलोड करें",
      "diagnosisResults" := "निदान परिणाम",
      "treatments" := "उपचार",
      "organicTreatments" := "जैविक उपचार",
      "chemicalTreatments" := "रासायनिक उपचार",
      "selectCrop" := "फसल चुनें",
      "selectLanguage" := "भाषा चुनें",
      "onlineMode" := "ऑनलाइन मोड",
      "offlineMode" := "ऑफलाइन मोड",
      "loading" := "लोड हो रहा है...",
      "noResults" := "कोई परिणाम नहीं मिला",
      "viewHistory" := "इतिहास देखें",
      "logout" := "लॉगआउट",
      "login" := "लॉगिन",
      "register" := "रजिस्टर",
      "welcomeMessage" := "अपने कैमरे से तुरंत पौधों के रोगों का निदान करें"]
    case Tamil => map[
      "appName" := "விவசாயிகள் AI உதவியாளர்",
      "home" := "முகப்பு",
      "diagnose" := "நோயறிதல்",
      "history" := "வரலாறு",
      "settings" := "அமைப்புகள்",
      "takePicture" := "படம் எடுக்க",
      "uploadImage" := "படத்தை பதிவேற்றவும்",
      "diagnosisResults" := "நோயறிதல் முடிவுகள்",
      "treatments" := "சிகிச்சைகள்",
      "organicTreatments" := "இயற்கை சிகிச்சைகள்",
      "chemicalTreatments" := "இரசாயன சிகிச்சைகள்",
      "selectCrop" := "பயிரைத் தேர்ந்தெடுக்கவும்",
      "selectLanguage" := "மொழியைத் தேர்ந்தெடுக்கவும்",
      "onlineMode" := "ஆன்லைன் முறை",
      "offlineMode" := "ஆஃப்லைன் முறை",
      "loading" := "ஏற்றுகிறது...",
      "noResults" := "முடிவுகள் எதுவும் இல்லை",
      "viewHistory" := "வரலாற்றைக் காண",
      "logout" := "வெளியேறு",
      "login" := "உள்நுழைய",
      "register" := "பதிவு செய்ய",
      "welcomeMessage" := "உங்கள் கேமராவுடன் உடனடியாக தாவர நோய்களை கண்டறியவும்"]
    case Telugu => map[
      "appName" := "రైతుల AI సహాయకుడు",
      "home" := "హోమ్",
      "diagnose" := "రోగ నిర్ధారణ",
      "history" := "చరిత్ర",
      "settings" := "సెట్టింగులు",
      "takePicture" := "ఫోటో తీయండి",
      "uploadImage" := "చిత్రాన్ని అప్‌లోడ్ చేయండి",
      "diagnosisResults" := "రోగ నిర్ధారణ ఫలితాలు",
      "treatments" := "చికిత్సలు",
      "organicTreatments" := "సేంద్రీయ చికిత్సలు",
      "chemicalTreatments" := "రసాయన చికిత్సలు",
      "selectCrop" := "పంటను ఎంచుకోండి",
      "selectLanguage" := "భాషను ఎంచుకోండి",
      "onlineMode" := "ఆన్‌లైన్ మోడ్",
      "offlineMode" := "ఆఫ్‌లైన్ మోడ్",
      "loading" := "లోడ్ అవుతోంది...",
      "noResults" := "ఫలితాలు కనుగొనబడలేదు",
      "viewHistory" := "చరిత్రను వీక్షించండి",
      "logout" := "లాగౌట్",
      "login" := "లాగిన్",
      "register" := "నమోదు",
      "welcomeMessage" := "మీ కెమెరాతో వెంటనే మొక్కల వ్యాధులను గుర్తించండి"]
    case Bengali => map[
      "appName" := "কৃষক AI সহকারী",
      "home" := "হোম",
      "diagnose" := "রোগ নির্ণয়",
      "history" := "ইতিহাস",
      "settings" := "সেটিংস",
      "takePicture" := "ছবি তুলুন",
      "uploadImage" := "ছবি আপলোড করুন",
      "diagnosisResults" := "রোগ নির্ণয়ের ফলাফল",
      "treatments" := "চিকিৎসা",
      "organicTreatments" := "জৈব চিকিৎসা",
      "chemicalTreatments" := "রাসায়নিক চিকিৎসা",
      "selectCrop" := "ফসল নির্বাচন করুন",
      "selectLanguage" := "ভাষা নির্বাচন করুন",
      "onlineMode" := "অনলাইন মোড",
      "offlineMode" := "অফলাইন মোড",
      "loading" := "লোড হচ্ছে...",
      "noResults" := "কোন ফলাফল পাওয়া যায়নি",
      "viewHistory" := "ইতিহাস দেখুন",
      "logout" := "লগআউট",
      "login" := "লগইন",
      "register" := "নিবন্ধন",
      "welcomeMessage" := "আপনার ক্যামেরা দিয়ে তাৎক্ষণিকভাবে উদ্ভিদের রোগ নির্ণয় করুন"]
    case Marathi => map[
      "appName" := "शेतकरी AI सहाय्यक",
      "home" := "होम",
      "diagnose" := "निदान",
      "history" := "इतिहास",
      "settings" := "सेटिंग्ज",
      "takePicture" := "फोटो काढा",
      "uploadImage" := "प्रतिमा अपलोड करा",
      "diagnosisResults" := "निदान परिणाम",
      "treatments" := "उपचार",
      "organicTreatments" := "सेंद्रिय उपचार",
      "chemicalTreatments" := "रासायनिक उपचार",
      "selectCrop" := "पीक निवडा",
      "selectLanguage" := "भाषा निवडा",
      "onlineMode" := "ऑनलाइन मोड",
      "offlineMode" := "ऑफलाइन मोड",
      "loading" := "लोड होत आहे...",
      "noResults" := "कोणतेही परिणाम सापडले नाहीत",
      "viewHistory" := "इतिहास पहा",
      "logout" := "लॉगआउट",
      "login" := "लॉगिन",
      "register" := "नोंदणी",
      "welcomeMessage" := "आपल्या कॅमेऱ्याने त्वरित वनस्पतींच्या रोगांचे निदान करा"]
    case Gujarati => map[
      "appName" := "ખેડૂત AI સહાયક",
      "home" := "હોમ",
      "diagnose" := "નિદાન",
      "history" := "ઇતિહાસ",
      "settings" := "સેટિંગ્સ",
      "takePicture" := "ફોટો લો",
      "uploadImage" := "છબી અપલોડ કરો",
      "diagnosisResults" := "નિદાન પરિણામો",
      "treatments" := "સારવાર",
      "organicTreatments" := "જૈવિક સારવાર",
      "chemicalTreatments" := "રાસાયણિક સારવાર",
      "selectCrop" := "પાક પસંદ કરો",
      "selectLanguage" := "ભાષા પસંદ કરો",
      "onlineMode" := "ઓનલાઇન મોડ",
      "offlineMode" := "ઓફલાઇન મોડ",
      "loading" := "લોડ થઈ રહ્યું છે...",
      "noResults" := "કોઈ પરિણામ મળ્યું નથી",
      "viewHistory" := "ઇતિહાસ જુઓ",
      "logout" := "લૉગઆઉટ",
      "login" := "લૉગિન",
      "register" := "નોંધણી",
      "welcomeMessage" := "તમારા કેમેરા સાથે તરત જ વનસ્પતિના રોગોનું નિદાન કરો"]
    case Punjabi => map[
      "appName" := "ਕਿਸਾਨ AI ਸਹਾਇਕ",
      "home" := "ਹੋਮ",
      "diagnose" := "ਰੋਗ ਦਾ ਪਤਾ ਲਗਾਓ",
      "history" := "ਇਤਿਹਾਸ",
      "settings" := "ਸੈਟਿੰਗਾਂ",
      "takePicture" := "ਤਸਵੀਰ ਲਓ",
      "uploadImage" := "ਚਿੱਤਰ ਅਪਲੋਡ ਕਰੋ",
      "diagnosisResults" := "ਰੋਗ ਦੇ ਨਤੀਜੇ",
      "treatments" := "ਇਲਾਜ",
      "organicTreatments" := "ਜੈਵਿਕ ਇਲਾਜ",
      "chemicalTreatments" := "ਰਸਾਇਣਕ ਇਲਾਜ",
      "selectCrop" := "ਫਸਲ ਚੁਣੋ",
      "selectLanguage" := "ਭਾਸ਼ਾ ਚੁਣੋ",
      "onlineMode" := "ਔਨਲਾਈਨ ਮੋਡ",
      "offlineMode" := "ਔਫਲਾਈਨ ਮੋਡ",
      "loading" := "ਲੋਡ ਹੋ ਰਿਹਾ ਹੈ...",
      "noResults" := "ਕੋਈ ਨਤੀਜੇ ਨਹੀਂ ਮਿਲੇ",
      "viewHistory" := "ਇਤਿਹਾਸ ਵੇਖੋ",
      "logout" := "ਲੌਗਆਊਟ",
      "login" := "ਲੌਗਇਨ",
      "register" := "ਰਜਿਸਟਰ",
      "welcomeMessage" := "ਆਪਣੇ ਕੈਮਰੇ ਨਾਲ ਤੁਰੰਤ ਪੌਦਿਆਂ ਦੀਆਂ ਬਿਮਾਰੀਆਂ ਦਾ ਪਤਾ ਲਗਾਓ"]
  }

  /** Every table defines exactly the keys of `Keys`, none of them as the empty string. */
  lemma TablesComplete(l: Language)
    ensures Table(l).Keys == set k | k in Keys
    ensures forall k :: k in Table(l) ==> Table(l)[k] != ""
  {
    match l
    case English => EnglishTableComplete();
    case Hindi => HindiTableComplete();
    case Tamil => TamilTableComplete();
    case Telugu => TeluguTableComplete();
    case Bengali => BengaliTableComplete();
    case Marathi => MarathiTableComplete();
    case Gujarati => GujaratiTableComplete();
    case Punjabi => PunjabiTableComplete();
  }

  lemma EnglishTableComplete()
    ensures Table(English).Keys == set k | k in Keys
    ensures forall k :: k in Table(English) ==> Table(English)[k] != ""
  {
  }

  lemma HindiTableComplete()
    ensures Table(Hindi).Keys == set k | k in Keys
    ensures forall k :: k in Table(Hindi) ==> Table(Hindi)[k] != ""
  {
  }

  lemma TamilTableComplete()
    ensures Table(Tamil).Keys == set k | k in Keys
    ensures forall k :: k in Table(Tamil) ==> Table(Tamil)[k] != ""
  {
  }

  lemma TeluguTableComplete()
    ensures Table(Telugu).Keys == set k | k in Keys
    ensures forall k :: k in Table(Telugu) ==> Table(Telugu)[k] != ""
  {
  }

  lemma BengaliTableComplete()
    ensures Table(Bengali).Keys == set k | k in Keys
    ensures forall k :: k in Table(Bengali) ==> Table(Bengali)[k] != ""
  {
  }

  lemma MarathiTableComplete()
    ensures Table(Marathi).Keys == set k | k in Keys
    ensures forall k :: k in Table(Marathi) ==> Table(Marathi)[k] != ""
  {
  }

  lemma GujaratiTableComplete()
    ensures Table(Gujarati).Keys == set k | k in Keys
    ensures forall k :: k in Table(Gujarati) ==> Table(Gujarati)[k] != ""
  {
  }

  lemma PunjabiTableComplete()
    ensures Table(Punjabi).Keys == set k | k in Keys
    ensures forall k :: k in Table(Punjabi) ==> Table(Punjabi)[k] != ""
  {
  }


  /** `translations[language][key] || key`: the table entry when it is defined and not empty,
      otherwise the key itself. So the text shown is the key or an entry for it, and it is
      empty only for the empty key. */
  function Lookup(t: map<string, string>, key: string): (v: string)
    ensures v == key || (key in t && v == t[key])
    ensures key in t && t[key] != "" ==> v == t[key]
    ensures v == "" ==> key == ""
  {
    if key in t && t[key] != "" then t[key] else key
  }

  /** `t(key)` in language `l`: the key itself, or that language's non-empty entry for it. */
  function Translate(l: Language, key: string): (v: string)
    ensures v == key || (key in Table(l) && v == Table(l)[key] && v != "")
    ensures key in Table(l) && Table(l)[key] != "" ==> v == Table(l)[key]
    ensures v == "" ==> key == ""
  {
    Lookup(Table(l), key)
  }

  /** A key of the tables is translated in every language, to that language's entry. */
  lemma TranslateKnownKey(l: Language, key: string)
    requires key in Keys
    ensures key in Table(l) && Translate(l, key) == Table(l)[key] && Translate(l, key) != ""
  {
    var t := Table(l);
    TablesComplete(l);
    assert key in t.Keys;
    assert t[key] != "";
  }

  /** Any other key is shown as itself, in every language. */
  lemma TranslateUnknownKey(l: Language, key: string)
    requires key !in Keys
    ensures Translate(l, key) == key
  {
    TablesComplete(l);
  }

  /** The context a component sees outside any provider: English, and `t` gives back the key. */
  const DefaultLanguage: Language := English

  function DefaultTranslate(key: string): string
  {
    key
  }

  /** Outside a provider `t` shows the raw key even where the default language's table has
      an entry: "appName" stays "appName" instead of becoming "Farmers AI Assistant". */
  lemma DefaultContextUntranslated()
    ensures forall key :: DefaultTranslate(key) == key
    ensures DefaultTranslate("appName") == "appName"
    ensures Translate(DefaultLanguage, "appName") == "Farmers AI Assistant"
  {
    TranslateKnownKey(English, "appName");
  }

  /** The language a provider settles on at mount: the stored one when it is set and names a
      table, English otherwise. */
  function Restored(saved: Option<string>): (l: Language)
    ensures saved.Some? && saved.value in LanguageNames ==> LanguageName(l) == saved.value
    ensures !(saved.Some? && saved.value in LanguageNames) ==> l == English
  {
    match saved
    // `s != ""` is the `savedLanguage &&` truthiness test; no language is named by "".
    case Some(s) => if s != "" && s in LanguageNames then ParseLanguage(s).value else English
    case None => English
  }

  /** `LanguageProvider`: the current language and the `"language"` item of local storage. */
  class LanguageProvider {
    var language: Language
    /** `localStorage.getItem("language")`. */
    var stored: Option<string>

    /** After every change the stored item names the current language. */
    ghost predicate Valid()
      reads this
    {
      stored == Some(LanguageName(language))
    }

    /** Mounting with `saved` in local storage. The first render starts in English; the
        restore effect reads `saved` and adopts it when it is set and names a table; the
        persist effect writes "english" after the first render and writes the restored
        language after the render it causes. */
    constructor (saved: Option<string>)
      ensures Valid()
      ensures language == Restored(saved)
    {
      language := English;
      stored := saved;
      new;
      var restore := saved.Some? && saved.value != "" && saved.value in LanguageNames;
      stored := Some(LanguageName(language));
      if restore {
        language := ParseLanguage(saved.value).value;
        stored := Some(LanguageName(language));
      }
    }

    /** `setLanguage(l)`; the persist effect runs when the language changes. */
    method SetLanguage(l: Language)
      requires Valid()
      modifies this
      ensures Valid()
      ensures language == l
    {
      if l != language {
        language := l;
        stored := Some(LanguageName(language));
      }
    }

    /** The provider's `t`: the key itself, or the current language's non-empty entry for it. */
    function T(key: string): (v: string)
      reads this
      ensures v == key || (key in Table(language) && v == Table(language)[key] && v != "")
      ensures key in Table(language) && Table(language)[key] != "" ==> v == Table(language)[key]
    {
      Translate(language, key)
    }
  }
}
