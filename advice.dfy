/** A recommendation as the analyzer's rule-based engines write it: a
    category, a title, a description and an impact level. The titles and
    the fixed parts of the descriptions form a closed set of messages, so
    they are named here and their wording is given once, by `TitleText`
    and `PhraseText`. */
module Advice {
  import opened PyValues
  import opened Scores

  datatype Impact = High | Medium | Low

  /** Every title the rule-based engines write. */
  datatype Title =
    | ImprovePageTitle | AddPageDescription | AddImageDescriptions
    | SpeedUpLoading | ImproveSpeed
    | ImproveAccessibility
    | EnableHttps | ImproveSecurity
    | PageSpeedUnavailable | ImprovePageLoad | OptimizeLcp | ReduceCls | ContinueMonitoring

  function TitleText(t: Title): string
  {
    match t
    case ImprovePageTitle => "Improve Your Page Title"
    case AddPageDescription => "Add a Page Description"
    case AddImageDescriptions => "Add Descriptions to Your Images"
    case SpeedUpLoading => "Speed Up Your Website Loading"
    case ImproveSpeed => "Improve Your Website Speed"
    case ImproveAccessibility => "Improve Website Accessibility"
    case EnableHttps => "Enable Secure Connection (HTTPS)"
    case ImproveSecurity => "Improve Website Security"
    case PageSpeedUnavailable => "PageSpeed Analysis Unavailable"
    case ImprovePageLoad => "Improve Page Load Performance"
    case OptimizeLcp => "Optimize Largest Contentful Paint (LCP)"
    case ReduceCls => "Reduce Cumulative Layout Shift (CLS)"
    case ContinueMonitoring => "Continue Monitoring Performance"
  }

  /** The fixed text around the values a description interpolates. */
  datatype Phrase =
    | TitleShortLead | TitleShortTail | DescriptionMissing | AltMissing
    | LoadingLead | LoadingTail | SpeedLead | SpeedTail
    | AccessibilityLead | AccessibilityTail | HttpsMissing | SecurityLead | SecurityTail
    | UnavailableShort | UnavailableLong | PageLoadLead | PageLoadTail
    | LcpLead | LcpTail | ClsLead | ClsTail | Monitoring

  function PhraseText(p: Phrase): string
  {
    match p
    case TitleShortLead => "Your page title is too short (currently "
    case TitleShortTail => " characters). Add more descriptive words about what your page is about. Aim for 50-60 characters total. You can edit this in your website settings or content management system."
    case DescriptionMissing => "Your page is missing a description that helps search engines understand your content. Add a compelling description between 150-160 characters that explains what your page is about. You can add this in your website settings or ask your web developer to add it."
    case AltMissing => "Some of your images are missing descriptions (alt text). This helps search engines understand your images and improves accessibility. Go through your images and add short descriptions of what each image shows. You can do this when uploading images or by editing existing images in your website editor."
    case LoadingLead => "Your website takes too long to show the main content ("
    case LoadingTail => "). Make your images smaller before uploading them. Use free tools like TinyPNG.com or Squoosh.app to compress images. Simply upload your image, download the compressed version, and replace it on your website."
    case SpeedLead => "Your website is loading slowly (Performance score: "
    case SpeedTail => "/100). Make your images smaller using free tools like TinyPNG.com. Also, consider using a content delivery network (CDN) if you have many visitors. Contact your web hosting provider for help setting this up."
    case AccessibilityLead => "Your website accessibility score is "
    case AccessibilityTail => "/100. Add descriptions (alt text) to all images, ensure text has good contrast with backgrounds, and make sure all buttons and links are clearly labeled. This helps people with disabilities use your website and improves your search rankings."
    case HttpsMissing => "Your website is not using a secure connection (HTTPS). This is important for protecting visitor information and improving search rankings. Contact your web hosting provider to enable SSL/HTTPS - most hosting providers offer this for free."
    case SecurityLead => "Your website security practices score is "
    case SecurityTail => "/100. Ensure your website has proper security headers and keep all software updated. Contact your web developer or hosting provider for assistance with security improvements."
    case UnavailableShort => "Unable to analyze website performance."
    case UnavailableLong => "Unable to analyze website performance. Please check your PageSpeed API key configuration."
    case PageLoadLead => "Your performance score is "
    case PageLoadTail => "/100. Optimize images, minify CSS/JS, and enable caching to improve load times."
    case LcpLead => "Your LCP is "
    case LcpTail => ". Optimize images, use a CDN, and improve server response times."
    case ClsLead => "Your CLS is "
    case ClsTail => ". Set size attributes on images and avoid inserting content above existing content."
    case Monitoring => "Regularly monitor your website performance using PageSpeed Insights and address any new issues."
  }

  /** A part of a description: fixed text, an interpolated integer, or an
      interpolated value copied from the PageSpeed response (a display
      string such as "3.1 s"). Keeping the parts apart leaves out how
      Python renders a number as text. */
  datatype Piece = Text(phrase: Phrase) | Int(n: int) | Shown(v: Json)

  datatype Recommendation = Recommendation(
    category: Category, title: Title, description: seq<Piece>, impact: Impact)

  /** `[x]` for a pass that produced `x`, `[]` for one that produced nothing. */
  function OptionList(o: Option<Recommendation>): (r: seq<Recommendation>)
    ensures |r| <= 1
    ensures o.Some? ==> r == [o.value]
    ensures o.None? <==> r == []
  {
    match o
    case Some(x) => [x]
    case None => []
  }
}
